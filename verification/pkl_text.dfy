/** The Pkl printer of src/config/migrate.ts on the level of text: string literals,
    rendered lines, and the scanner that recovers them. */
module PklText {
  import opened Wrappers
  import opened PklPrinter

  // ---------------------------------------------------------------- escapeString

  /** `s.replace(/c/g, r)` for a single character. */
  function Replace(s: string, c: char, r: string): string {
    if s == "" then "" else (if s[0] == c then r else [s[0]]) + Replace(s[1..], c, r)
  }

  /** The five replacements, in their order. */
  function EscapeString(s: string): string {
    Replace(Replace(Replace(Replace(Replace(s, '\\', "\\\\"), '"', "\\\""), '\n', "\\n"), '\r', "\\r"), '\t', "\\t")
  }

  function EscapeChar(c: char): string {
    match c
    case '\\' => "\\\\"
    case '"' => "\\\""
    case '\n' => "\\n"
    case '\r' => "\\r"
    case '\t' => "\\t"
    case _ => [c]
  }

  function Escape(s: string): string {
    if s == "" then "" else EscapeChar(s[0]) + Escape(s[1..])
  }

  lemma {:induction false} ReplaceConcat(a: string, b: string, c: char, r: string)
    ensures Replace(a + b, c, r) == Replace(a, c, r) + Replace(b, c, r)
  {
    if a == "" {
      assert a + b == b;
    } else {
      assert (a + b)[1..] == a[1..] + b;
      ReplaceConcat(a[1..], b, c, r);
    }
  }

  lemma EscapeConcat(a: string, b: string)
    ensures EscapeString(a + b) == EscapeString(a) + EscapeString(b)
  {
    var a1, b1 := Replace(a, '\\', "\\\\"), Replace(b, '\\', "\\\\");
    ReplaceConcat(a, b, '\\', "\\\\");
    var a2, b2 := Replace(a1, '"', "\\\""), Replace(b1, '"', "\\\"");
    ReplaceConcat(a1, b1, '"', "\\\"");
    var a3, b3 := Replace(a2, '\n', "\\n"), Replace(b2, '\n', "\\n");
    ReplaceConcat(a2, b2, '\n', "\\n");
    var a4, b4 := Replace(a3, '\r', "\\r"), Replace(b3, '\r', "\\r");
    ReplaceConcat(a3, b3, '\r', "\\r");
    ReplaceConcat(a4, b4, '\t', "\\t");
  }

  lemma ReplaceOne(x: char, c: char, r: string)
    ensures Replace([x], c, r) == if x == c then r else [x]
  {
    assert [x][1..] == "";
  }

  lemma ReplaceTwo(x: char, y: char, c: char, r: string)
    requires x != c && y != c
    ensures Replace([x, y], c, r) == [x, y]
  {
    assert [x, y][1..] == [y];
    ReplaceOne(y, c, r);
  }

  lemma EscapeOne(x: char)
    ensures EscapeString([x]) == EscapeChar(x)
  {
    ReplaceOne(x, '\\', "\\\\");
    ReplaceOne(x, '"', "\\\"");
    ReplaceOne(x, '\n', "\\n");
    ReplaceOne(x, '\r', "\\r");
    ReplaceOne(x, '\t', "\\t");
    ReplaceTwo('\\', '\\', '"', "\\\"");
    ReplaceTwo('\\', '\\', '\n', "\\n");
    ReplaceTwo('\\', '"', '\n', "\\n");
    ReplaceTwo('\\', '\\', '\r', "\\r");
    ReplaceTwo('\\', '"', '\r', "\\r");
    ReplaceTwo('\\', 'n', '\r', "\\r");
    ReplaceTwo('\\', '\\', '\t', "\\t");
    ReplaceTwo('\\', '"', '\t', "\\t");
    ReplaceTwo('\\', 'n', '\t', "\\t");
    ReplaceTwo('\\', 'r', '\t', "\\t");
  }

  /** The five replacements one after the other escape each character once. */
  lemma {:induction false} EscapeIsPerCharacter(s: string)
    ensures EscapeString(s) == Escape(s)
  {
    if s != "" {
      assert s == [s[0]] + s[1..];
      EscapeConcat([s[0]], s[1..]);
      EscapeOne(s[0]);
      EscapeIsPerCharacter(s[1..]);
    }
  }

  // ---------------------------------------------------------------- string literals

  /** What the escape `\c` stands for. */
  function Decode(c: char): Option<char> {
    match c
    case '\\' => Some('\\')
    case '"' => Some('"')
    case 'n' => Some('\n')
    case 'r' => Some('\r')
    case 't' => Some('\t')
    case _ => None
  }

  /** Reads a string literal behind its opening quote: its content and what follows the
      closing quote. */
  function ReadLiteral(s: string): Option<(string, string)> {
    if s == "" then None
    else if s[0] == '"' then Some(("", s[1..]))
    else if s[0] == '\\' then
      if |s| < 2 || Decode(s[1]).None? then None else WithChar(Decode(s[1]).value, ReadLiteral(s[2..]))
    else WithChar(s[0], ReadLiteral(s[1..]))
  }

  function WithChar(c: char, r: Option<(string, string)>): Option<(string, string)> {
    if r.None? then None else Some(([c] + r.value.0, r.value.1))
  }

  lemma {:induction false} LiteralRoundTrip(x: string, rest: string)
    ensures ReadLiteral(Escape(x) + "\"" + rest) == Some((x, rest))
  {
    var text := Escape(x) + "\"" + rest;
    if x == "" {
      assert text[1..] == rest;
    } else {
      LiteralRoundTrip(x[1..], rest);
      var e, more := EscapeChar(x[0]), Escape(x[1..]) + "\"" + rest;
      assert text == e + more;
      if |e| == 2 {
        assert text[2..] == more && Decode(e[1]) == Some(x[0]);
      } else {
        assert text[1..] == more;
      }
      assert x == [x[0]] + x[1..];
    }
  }

  // ---------------------------------------------------------------- rendering

  function RenderScalar(s: Scalar): string {
    if s.Str? then "\"" + EscapeString(s.text) + "\"" else s.text
  }

  function RenderKey(k: KeyText): string {
    if k.Bare? then k.name else "[\"" + EscapeString(k.name) + "\"]"
  }

  function End(empty: bool): string {
    if empty then " {}" else " {"
  }

  /** What follows the key of a block. */
  function Opener(typeName: Option<string>, empty: bool): string {
    if typeName.Some? then " = new " + (typeName.value + End(empty)) else End(empty)
  }

  function RenderBody(b: Body): string {
    match b
    case Assign(k, s) => RenderKey(k) + (" = " + RenderScalar(s))
    case Open(k, t) => RenderKey(k) + Opener(t, false)
    case OpenClose(k, t) => RenderKey(k) + Opener(t, true)
    case Element(s) => RenderScalar(s)
    case NewOpen => "new {"
    case NewClose => "new {}"
    case Close => "}"
  }

  function Spaces(n: nat): string {
    if n == 0 then "" else "  " + Spaces(n - 1)
  }

  function Render(l: Line): string {
    Spaces(l.indent) + RenderBody(l.body)
  }

  // ---------------------------------------------------------------- scanning

  /** The longest prefix of identifier characters. */
  function IdentLength(s: string): (n: nat)
    ensures n <= |s|
  {
    if s == "" || !IdentChar(s[0]) then 0 else 1 + IdentLength(s[1..])
  }

  /** A key and the text behind it. */
  function ReadKey(s: string): Option<(KeyText, string)> {
    if |s| >= 2 && s[0] == '[' && s[1] == '"' then
      var lit := ReadLiteral(s[2..]);
      if lit.None? || lit.value.1 == "" || lit.value.1[0] != ']' then None
      else Some((Bracket(lit.value.0), lit.value.1[1..]))
    else
      var n := IdentLength(s);
      if n == 0 then None else Some((Bare(s[..n]), s[n..]))
  }

  function ReadScalar(s: string): Option<Scalar> {
    if s != "" && s[0] == '"' then
      var lit := ReadLiteral(s[1..]);
      if lit.None? || lit.value.1 != "" then None else Some(Str(lit.value.0))
    else if s == "" then None
    else Some(Raw(s))
  }

  function AfterKey(k: KeyText, s: string): Option<Body> {
    if s == " {" then Some(Open(k, None))
    else if s == " {}" then Some(OpenClose(k, None))
    else if |s| >= 7 && s[..7] == " = new " then
      var t := s[7..];
      var n := IdentLength(t);
      if t[n..] == " {" then Some(Open(k, Some(t[..n])))
      else if t[n..] == " {}" then Some(OpenClose(k, Some(t[..n])))
      else None
    else if |s| >= 3 && s[..3] == " = " then
      var v := ReadScalar(s[3..]);
      if v.None? then None else Some(Assign(k, v.value))
    else None
  }

  function ScanBody(s: string): Option<Body> {
    if s == "}" then Some(Close)
    else if s == "new {" then Some(NewOpen)
    else if s == "new {}" then Some(NewClose)
    else
      var key := ReadKey(s);
      if key.Some? && key.value.1 != "" && key.value.1[0] == ' ' then AfterKey(key.value.0, key.value.1)
      else var v := ReadScalar(s); if v.None? then None else Some(Element(v.value))
  }

  function Trim(s: string): (string, nat) {
    if |s| >= 2 && s[0] == ' ' && s[1] == ' ' then var t := Trim(s[2..]); (t.0, t.1 + 1) else (s, 0)
  }

  function Scan(s: string): Option<Line> {
    var t := Trim(s);
    var b := ScanBody(t.0);
    if b.None? then None else Some(Line(t.1, b.value))
  }

  // ---------------------------------------------------------------- what can be scanned back

  /** One word, as the text of every number and boolean is. */
  predicate RawOk(t: string) {
    t != "" && t[0] !in {'"', '[', '}'} && forall i | 0 <= i < |t| :: t[i] !in {' ', '\n'}
  }

  predicate ScalarOk(s: Scalar) {
    s.Raw? ==> RawOk(s.text)
  }

  predicate KeyOk(k: KeyText) {
    k.Bare? ==> Ident(k.name)
  }

  predicate TypeOk(t: Option<string>) {
    t.Some? ==> Ident(t.value)
  }

  /** Every printed line is of this form. */
  predicate BodyOk(b: Body) {
    match b
    case Assign(k, s) => KeyOk(k) && ScalarOk(s)
    case Open(k, t) => KeyOk(k) && TypeOk(t)
    case OpenClose(k, t) => KeyOk(k) && TypeOk(t)
    case Element(s) => ScalarOk(s)
    case _ => true
  }

  lemma {:induction false} IdentLengthOf(x: string, rest: string)
    requires (forall i | 0 <= i < |x| :: IdentChar(x[i])) && (rest == "" || !IdentChar(rest[0]))
    ensures IdentLength(x + rest) == |x|
  {
    if x == "" {
      assert x + rest == rest;
    } else {
      assert (x + rest)[1..] == x[1..] + rest;
      IdentLengthOf(x[1..], rest);
    }
  }

  lemma {:induction false} TrimSpaces(n: nat, s: string)
    requires s == "" || s[0] != ' '
    ensures Trim(Spaces(n) + s) == (s, n)
  {
    if n == 0 {
      assert "" + s == s;
    } else {
      var t := Spaces(n) + s;
      assert t == "  " + (Spaces(n - 1) + s);
      assert t[2..] == Spaces(n - 1) + s;
      TrimSpaces(n - 1, s);
    }
  }

  lemma BareKeyRoundTrip(name: string, rest: string)
    requires Ident(name) && rest != "" && rest[0] == ' '
    ensures ReadKey(name + rest) == Some((Bare(name), rest))
  {
    var s := name + rest;
    IdentLengthOf(name, rest);
    assert s[..|name|] == name && s[|name|..] == rest;
  }

  lemma BracketKeyRoundTrip(name: string, rest: string)
    ensures ReadKey(RenderKey(Bracket(name)) + rest) == Some((Bracket(name), rest))
  {
    var e := EscapeString(name);
    var s := RenderKey(Bracket(name)) + rest;
    EscapeIsPerCharacter(name);
    LiteralRoundTrip(name, "]" + rest);
    assert s[2..] == e + "\"" + ("]" + rest);
    assert ("]" + rest)[1..] == rest;
  }

  lemma KeyRoundTrip(k: KeyText, rest: string)
    requires KeyOk(k) && rest != "" && rest[0] == ' '
    ensures ReadKey(RenderKey(k) + rest) == Some((k, rest))
  {
    if k.Bare? { BareKeyRoundTrip(k.name, rest); } else { BracketKeyRoundTrip(k.name, rest); }
  }

  lemma KeyIsNew(k: KeyText, rest: string, empty: bool)
    requires KeyOk(k) && rest != "" && rest[0] == ' '
    ensures RenderKey(k) + rest == "new" + End(empty) ==> k == Bare("new") && rest == End(empty)
  {
    KeyRoundTrip(k, rest);
    BareKeyRoundTrip("new", End(empty));
  }

  lemma ScalarRoundTrip(s: Scalar)
    requires ScalarOk(s)
    ensures ReadScalar(RenderScalar(s)) == Some(s)
  {
    if s.Str? {
      EscapeIsPerCharacter(s.text);
      LiteralRoundTrip(s.text, "");
      assert RenderScalar(s)[1..] == Escape(s.text) + "\"" + "";
    } else {
      assert s.text[0] != '"';
    }
  }

  lemma RawIsOneWord(s: Scalar)
    requires ScalarOk(s)
    ensures ReadKey(RenderScalar(s)).Some? ==>
              ReadKey(RenderScalar(s)).value.1 == "" || ReadKey(RenderScalar(s)).value.1[0] != ' '
    ensures RenderScalar(s) != "" && RenderScalar(s)[0] != ' ' && RenderScalar(s)[0] != '}'
    ensures RenderScalar(s)[0] == 'n' && |RenderScalar(s)| > 3 ==> RenderScalar(s)[3] != ' '
    ensures RenderScalar(s) != "new {" && RenderScalar(s) != "new {}"
  {
    var t := RenderScalar(s);
    if s.Raw? {
      assert "new {"[3] == ' ' && "new {}"[3] == ' ';
      var n := IdentLength(t);
      assert n < |t| ==> t[n..][0] == t[n];
    } else {
      assert t[0] == '"' && IdentLength(t) == 0;
    }
  }

  lemma ElementRoundTrip(s: Scalar)
    requires ScalarOk(s)
    ensures ScanBody(RenderScalar(s)) == Some(Element(s))
  {
    RawIsOneWord(s);
    ScalarRoundTrip(s);
  }

  lemma ValueRoundTrip(k: KeyText, s: Scalar)
    requires ScalarOk(s)
    ensures AfterKey(k, " = " + RenderScalar(s)) == Some(Assign(k, s))
  {
    var v, t := RenderScalar(s), " = " + RenderScalar(s);
    ScalarRoundTrip(s);
    RawIsOneWord(s);
    assert t[..3] == " = " && t[3..] == v;
    assert t[0] == ' ' && t[1] == '=' && t != " {" && t != " {}";
    assert " = new "[3] == 'n' && " = new "[6] == ' ';
    assert |t| >= 7 ==> t[..7][3] == v[0] && t[..7][6] == v[3];
  }

  function BlockBody(k: KeyText, t: Option<string>, empty: bool): Body {
    if empty then OpenClose(k, t) else Open(k, t)
  }

  lemma TypeRoundTrip(k: KeyText, name: string, empty: bool)
    requires Ident(name)
    ensures AfterKey(k, Opener(Some(name), empty)) == Some(BlockBody(k, Some(name), empty))
  {
    var rest := name + End(empty);
    var t := " = new " + rest;
    assert t[..7] == " = new " && t[7..] == rest;
    assert t[1] == '=' && " {"[1] == '{' && " {}"[1] == '{';
    IdentLengthOf(name, End(empty));
    assert rest[|name|..] == End(empty) && rest[..|name|] == name;
    assert |" {"| == 2 && |" {}"| == 3;
  }

  /** A line that begins with a key. */
  lemma KeyedRoundTrip(k: KeyText, rest: string, b: Body)
    requires KeyOk(k) && rest != "" && rest[0] == ' ' && AfterKey(k, rest) == Some(b)
    requires !(k == Bare("new") && (rest == " {" || rest == " {}"))
    ensures ScanBody(RenderKey(k) + rest) == Some(b)
    ensures RenderKey(k) != "" && RenderKey(k)[0] != ' '
  {
    KeyRoundTrip(k, rest);
    KeyIsNew(k, rest, false);
    KeyIsNew(k, rest, true);
    assert "new" + End(false) == "new {" && "new" + End(true) == "new {}";
    assert (RenderKey(k) + rest)[0] == RenderKey(k)[0];
  }

  predicate ScansBack(b: Body) {
    ScanBody(RenderBody(b)) == Some(See(true, b)) && RenderBody(b) != "" && RenderBody(b)[0] != ' '
  }

  lemma AssignRoundTrip(k: KeyText, s: Scalar)
    requires KeyOk(k) && ScalarOk(s)
    ensures ScansBack(Assign(k, s))
  {
    var rest := " = " + RenderScalar(s);
    ValueRoundTrip(k, s);
    assert rest[1] == '=' && " {"[1] == '{' && " {}"[1] == '{';
    KeyedRoundTrip(k, rest, Assign(k, s));
  }

  lemma TypedRoundTrip(k: KeyText, name: string, empty: bool)
    requires KeyOk(k) && Ident(name)
    ensures ScansBack(BlockBody(k, Some(name), empty))
  {
    var rest := Opener(Some(name), empty);
    TypeRoundTrip(k, name, empty);
    assert rest[0] == ' ' && rest[1] == '=' && " {"[1] == '{' && " {}"[1] == '{';
    KeyedRoundTrip(k, rest, BlockBody(k, Some(name), empty));
  }

  lemma PlainRoundTrip(k: KeyText, empty: bool)
    requires KeyOk(k)
    ensures ScansBack(BlockBody(k, None, empty))
  {
    if k == Bare("new") {
      assert "new" + End(false) == "new {" && "new" + End(true) == "new {}";
    } else {
      KeyedRoundTrip(k, End(empty), BlockBody(k, None, empty));
    }
  }

  lemma BlockRoundTrip(k: KeyText, t: Option<string>, empty: bool)
    requires BodyOk(BlockBody(k, t, empty))
    ensures ScansBack(BlockBody(k, t, empty))
  {
    if t.Some? { TypedRoundTrip(k, t.value, empty); } else { PlainRoundTrip(k, empty); }
  }

  lemma BodyRoundTrip(b: Body)
    requires BodyOk(b)
    ensures ScansBack(b)
  {
    match b
    case Assign(k, s) => AssignRoundTrip(k, s);
    case Open(k, t) => BlockRoundTrip(k, t, false);
    case OpenClose(k, t) => BlockRoundTrip(k, t, true);
    case Element(s) =>
      ElementRoundTrip(s);
      RawIsOneWord(s);
    case _ =>
  }

  /** A rendered line is scanned back, with its indentation, except that a block under the
      bare key `new` reads like an element of a list. */
  lemma LineRoundTrip(l: Line)
    requires BodyOk(l.body)
    ensures Scan(Render(l)) == Some(SeeLine(true, l))
  {
    BodyRoundTrip(l.body);
    TrimSpaces(l.indent, RenderBody(l.body));
  }
}
