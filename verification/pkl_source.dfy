/** `objectToPklSource` (src/config/migrate.ts) as a whole: the printed file is read back
    to the header and the tree it was printed from. */
module PklSource {
  import opened Wrappers
  import opened Sequences
  import opened PklPrinter
  import opened PklText

  // ---------------------------------------------------------------- lines of text

  function JoinLines(ls: seq<string>): string {
    if ls == [] then "" else if |ls| == 1 then ls[0] else ls[0] + "\n" + JoinLines(ls[1..])
  }

  function SplitLines(s: string): (ls: seq<string>)
    ensures ls != []
  {
    if s == "" then [""]
    else if s[0] == '\n' then [""] + SplitLines(s[1..])
    else var ls := SplitLines(s[1..]); [[s[0]] + ls[0]] + ls[1..]
  }

  predicate OneLine(s: string) {
    '\n' !in s
  }

  lemma {:induction false} SplitFirst(x: string, rest: string)
    requires OneLine(x)
    ensures SplitLines(x + "\n" + rest) == [x] + SplitLines(rest)
    ensures SplitLines(x) == [x]
  {
    var t := x + "\n" + rest;
    if x == "" {
      assert t[1..] == rest;
    } else {
      assert t[1..] == x[1..] + "\n" + rest;
      SplitFirst(x[1..], rest);
      assert [x[0]] + x[1..] == x;
    }
  }

  lemma {:induction false} SplitJoin(ls: seq<string>)
    requires ls != [] && forall i | 0 <= i < |ls| :: OneLine(ls[i])
    ensures SplitLines(JoinLines(ls)) == ls
  {
    if |ls| == 1 {
      SplitFirst(ls[0], "");
    } else {
      SplitJoin(ls[1..]);
      SplitFirst(ls[0], JoinLines(ls[1..]));
    }
  }

  // ---------------------------------------------------------------- printed lines can be scanned

  lemma {:induction false} EscapeIsOneLine(s: string)
    ensures OneLine(Escape(s))
  {
    if s != "" { EscapeIsOneLine(s[1..]); }
  }

  lemma {:induction false} SpacesAreOneLine(n: nat)
    ensures OneLine(Spaces(n))
  {
    if n > 0 { SpacesAreOneLine(n - 1); }
  }

  /** The text of an array inside an array fits in a line, or is even one word. */
  predicate NestedOk(words: bool, t: string) {
    if words then RawOk(t) else OneLine(t)
  }

  predicate BodyFits(words: bool, b: Body) {
    if b.Element? && b.scalar.Raw? then NestedOk(words, b.scalar.text) else BodyOk(b)
  }

  lemma RenderedIsOneLine(words: bool, l: Line)
    requires BodyFits(words, l.body)
    ensures OneLine(Render(l))
  {
    SpacesAreOneLine(l.indent);
    match l.body
    case Assign(k, s) => KeyIsOneLine(k); ScalarIsOneLine(s);
    case Open(k, t) => KeyIsOneLine(k); OpenerIsOneLine(t, false);
    case OpenClose(k, t) => KeyIsOneLine(k); OpenerIsOneLine(t, true);
    case Element(s) => if s.Str? { ScalarIsOneLine(s); }
    case _ =>
  }

  lemma KeyIsOneLine(k: KeyText)
    requires KeyOk(k)
    ensures OneLine(RenderKey(k))
  {
    EscapeIsPerCharacter(k.name);
    EscapeIsOneLine(k.name);
  }

  lemma ScalarIsOneLine(s: Scalar)
    requires ScalarOk(s)
    ensures OneLine(RenderScalar(s))
  {
    EscapeIsPerCharacter(s.text);
    EscapeIsOneLine(s.text);
  }

  lemma OpenerIsOneLine(t: Option<string>, empty: bool)
    requires TypeOk(t)
    ensures OneLine(Opener(t, empty))
  {
  }

  // ---------------------------------------------------------------- what a value must satisfy

  /** Numbers and booleans print as one word. The text of an array directly inside an array
      fits in a line, or is even one word. */
  predicate Printable(words: bool, v: Value)
    decreases v
  {
    match v
    case Null => true
    case Scalar(s) => ScalarOk(s)
    case List(items) => PrintableItems(words, items)
    case Object(fields) => PrintableFields(words, fields)
  }

  predicate PrintableFields(words: bool, fields: Fields)
    decreases fields
  {
    fields.Field? ==> Printable(words, fields.value) && PrintableFields(words, fields.rest)
  }

  predicate PrintableItems(words: bool, items: Items)
    decreases items
  {
    items.Item? ==>
      && (if items.head.List? then NestedOk(words, JsText(items.head)) else Printable(words, items.head))
      && PrintableItems(words, items.tail)
  }

  predicate LinesFit(words: bool, ls: seq<Line>) {
    forall i | 0 <= i < |ls| :: BodyFits(words, ls[i].body)
  }

  predicate Word(s: string) {
    forall i | 0 <= i < |s| :: Lower(s[i])
  }

  lemma {:induction false} WordStays(s: string)
    requires Word(s)
    ensures KebabToCamel(s) == s
  {
    if |s| >= 2 { WordStays(s[1..]); assert s == [s[0]] + s[1..]; }
  }

  lemma DashWord(b: string)
    requires Word(b) && b != ""
    ensures KebabToCamel("-" + b) == [ToUpper(b[0])] + b[1..]
  {
    assert ("-" + b)[2..] == b[1..];
    WordStays(b[1..]);
  }

  lemma CamelFirst(c: char, rest: string)
    requires Lower(c)
    ensures KebabToCamel([c] + rest) == [c] + KebabToCamel(rest)
  {
    assert ([c] + rest)[1..] == rest;
  }

  lemma {:induction false} KebabWords(a: string, b: string)
    requires Word(a) && Word(b) && b != ""
    ensures KebabToCamel(a + ("-" + b)) == a + ([ToUpper(b[0])] + b[1..])
  {
    var tail, camel := "-" + b, [ToUpper(b[0])] + b[1..];
    if a == "" {
      assert a + tail == tail;
      DashWord(b);
    } else {
      KebabWords(a[1..], b);
      CamelFirst(a[0], a[1..] + tail);
      Regroup([a[0]], a[1..], tail);
      Regroup([a[0]], a[1..], camel);
      assert a == [a[0]] + a[1..];
    }
  }

  predicate Camels(key: string) {
    Ident(KebabToCamel(key)) && KebabToCamel(key) != "new"
  }

  /** The key is two words with a dash at `n` between them. */
  predicate TwoWords(key: string, n: nat) {
    1 < n < |key| - 2 && key[n] == '-' && forall i | 0 <= i < |key| && i != n :: Lower(key[i])
  }

  lemma TwoWordsCamel(key: string, n: nat)
    requires TwoWords(key, n)
    ensures Camels(key)
  {
    var a, b := key[..n], key[n + 1..];
    assert key == a + ("-" + b);
    KebabWords(a, b);
  }

  function DashAt(key: string): nat {
    if key == "on-create" then 2
    else if key == "arg-regex" then 3
    else if key == "idle-timeout" then 4
    else if key in {"agent-args", "extra-mounts", "mount-socket"} then 5
    else if key in {"detach-key", "source-address"} then 6
    else 7
  }

  lemma DashIsEarly(key: string)
    requires key in KEBAB_KEYS && DashAt(key) <= 5
    ensures TwoWords(key, DashAt(key))
  {
  }

  lemma DashIsLate(key: string)
    requires key in KEBAB_KEYS && DashAt(key) > 5
    ensures TwoWords(key, DashAt(key))
  {
  }

  /** Every renamed key is an identifier. */
  lemma KebabKeysAreIdents(key: string)
    requires key in KEBAB_KEYS
    ensures Camels(key)
  {
    if DashAt(key) <= 5 { DashIsEarly(key); } else { DashIsLate(key); }
    TwoWordsCamel(key, DashAt(key));
  }

  lemma KeyAtOk(path: seq<string>, key: string)
    ensures KeyOk(KeyAt(path, key))
    ensures KeyAt(path, key) == Bare("new") <==> key == "new" && !MappingParent(path)
  {
    if key in KEBAB_KEYS { KebabKeysAreIdents(key); }
  }

  lemma TypeNameOk(path: seq<string>)
    ensures TypeOk(TypeName(path))
  {
  }

  lemma WrapFits(words: bool, k: KeyText, t: Option<string>, inner: seq<Line>, indent: nat)
    requires LinesFit(words, inner) && KeyOk(k) && TypeOk(t)
    ensures LinesFit(words, Wrap(k, t, inner, indent))
  {
  }

  lemma {:induction false} FieldsFit(words: bool, fields: Fields, indent: nat, path: seq<string>)
    requires PrintableFields(words, fields)
    ensures LinesFit(words, ObjectLines(fields, indent, path))
    decreases fields
  {
    if fields.Field? {
      FieldFits(words, fields.key, fields.value, indent, path);
      FieldsFit(words, fields.rest, indent, path);
    }
  }

  lemma {:induction false} FieldFits(words: bool, key: string, v: Value, indent: nat, path: seq<string>)
    requires Printable(words, v)
    ensures LinesFit(words, FieldLines(key, v, indent, path))
    decreases v
  {
    var k, child := KeyAt(path, key), ChildPath(path, key);
    KeyAtOk(path, key);
    match v
    case Null =>
    case Scalar(_) =>
    case List(items) =>
      ItemsFit(words, items, indent, child);
      WrapFits(words, k, None, ArrayLines(items, indent, child), indent);
    case Object(fields) =>
      FieldsFit(words, fields, indent + 1, child);
      TypeNameOk(child);
      WrapFits(words, k, TypeName(child), ObjectLines(fields, indent + 1, child), indent);
  }

  lemma {:induction false} ItemsFit(words: bool, items: Items, indent: nat, path: seq<string>)
    requires PrintableItems(words, items)
    ensures LinesFit(words, ArrayLines(items, indent, path))
    decreases items
  {
    if items.Item? {
      ItemFits(words, items.head, indent, path);
      ItemsFit(words, items.tail, indent, path);
    }
  }

  lemma {:induction false} ItemFits(words: bool, v: Value, indent: nat, path: seq<string>)
    requires if v.List? then NestedOk(words, JsText(v)) else Printable(words, v)
    ensures LinesFit(words, ItemLines(v, indent, path))
    decreases v
  {
    match v
    case Scalar(s) => if s.Raw? { RawIsOneLine(words, s.text); }
    case Object(fields) => FieldsFit(words, fields, indent + 2, ItemPath(path));
    case _ =>
  }

  lemma RawIsOneLine(words: bool, t: string)
    requires RawOk(t)
    ensures NestedOk(words, t)
  {
  }

  // ---------------------------------------------------------------- the file

  function RenderAll(ls: seq<Line>): seq<string> {
    Map(Render, ls)
  }

  lemma RenderRest(ls: seq<Line>)
    requires ls != []
    ensures RenderAll(ls) == [Render(ls[0])] + RenderAll(ls[1..])
  {
    MapRest(Render, ls);
  }

  /** `objectToPklSource` behind its header line. */
  function Source(header: string, fields: Fields): string {
    var ls := ObjectLines(fields, 0, [""]);
    var rest := if ls == [] then "\n" else "\n\n" + JoinLines(RenderAll(ls)) + "\n";
    "amends \"" + (EscapeString(header) + "\"" + rest)
  }

  function ScanAll(ss: seq<string>): Option<seq<Line>> {
    if ss == [] then Some([])
    else
      var l, rest := Scan(ss[0]), ScanAll(ss[1..]);
      if l.None? || rest.None? then None else Some([l.value] + rest.value)
  }

  function ReadBody(text: string): Option<Entries> {
    var ls := ScanAll(SplitLines(text));
    if ls.None? then None
    else
      var r := Parse(ls.value);
      if r.None? || r.value.1 != [] then None else Some(r.value.0)
  }

  function ReadSource(text: string): Option<(string, Entries)> {
    if |text| < 8 || text[..8] != "amends \"" then None
    else
      var h := ReadLiteral(text[8..]);
      if h.None? then None
      else
        var (name, rest) := h.value;
        if rest == "\n" then Some((name, Nil))
        else if |rest| < 3 || rest[..2] != "\n\n" || rest[|rest| - 1] != '\n' then None
        else
          var b := ReadBody(rest[2..|rest| - 1]);
          if b.None? then None else Some((name, b.value))
  }

  lemma ScanFirst(s: string, rest: seq<string>, l: Line, more: seq<Line>)
    requires Scan(s) == Some(l) && ScanAll(rest) == Some(more)
    ensures ScanAll([s] + rest) == Some([l] + more)
  {
    assert ([s] + rest)[1..] == rest;
  }

  lemma SeeFirst(ls: seq<Line>)
    requires ls != []
    ensures SeeAll(true, ls) == [SeeLine(true, ls[0])] + SeeAll(true, ls[1..])
  {
  }

  lemma {:induction false} ScanRendered(ls: seq<Line>)
    requires LinesFit(true, ls)
    ensures ScanAll(RenderAll(ls)) == Some(SeeAll(true, ls))
  {
    if ls == [] {
      assert SeeAll(true, ls) == [];
    } else {
      LineRoundTrip(ls[0]);
      ScanRendered(ls[1..]);
      RenderRest(ls);
      ScanFirst(Render(ls[0]), RenderAll(ls[1..]), SeeLine(true, ls[0]), SeeAll(true, ls[1..]));
      SeeFirst(ls);
    }
  }

  /** The text of lines splits into the lines again. */
  lemma BodySplits(words: bool, ls: seq<Line>)
    requires LinesFit(words, ls) && ls != []
    ensures SplitLines(JoinLines(RenderAll(ls))) == RenderAll(ls)
  {
    forall i | 0 <= i < |RenderAll(ls)| ensures OneLine(RenderAll(ls)[i]) { RenderedIsOneLine(words, ls[i]); }
    SplitJoin(RenderAll(ls));
  }

  lemma BodyReadsBack(fields: Fields)
    requires PrintableFields(true, fields) && ObjectLines(fields, 0, [""]) != []
    ensures ReadBody(JoinLines(RenderAll(ObjectLines(fields, 0, [""])))) == Some(SeenFields(true, fields, [""]))
  {
    var ls := ObjectLines(fields, 0, [""]);
    FieldsFit(true, fields, 0, [""]);
    ScanRendered(ls);
    BodySplits(true, ls);
    FieldsReadBack(true, fields, 0, [""], []);
    assert SeeAll(true, ls) + [] == SeeAll(true, ls);
  }

  /** The file reads back to what its body reads back to. */
  lemma SourceIsBody(header: string, fields: Fields)
    requires ObjectLines(fields, 0, [""]) != []
    ensures var b := ReadBody(JoinLines(RenderAll(ObjectLines(fields, 0, [""]))));
            ReadSource(Source(header, fields)) == if b.None? then None else Some((header, b.value))
  {
    var body := JoinLines(RenderAll(ObjectLines(fields, 0, [""])));
    var rest := "\n\n" + body + "\n";
    HeaderReadsBack(header, rest);
    assert rest[..2] == "\n\n" && rest[2..|rest| - 1] == body;
  }

  lemma SourceIsSeen(header: string, fields: Fields)
    requires PrintableFields(true, fields)
    ensures ReadSource(Source(header, fields)) == Some((header, SeenFields(true, fields, [""])))
  {
    if ObjectLines(fields, 0, [""]) == [] {
      HeaderReadsBack(header, "\n");
      FieldsReadBack(true, fields, 0, [""], []);
    } else {
      BodyReadsBack(fields);
      SourceIsBody(header, fields);
    }
  }

  lemma HeaderReadsBack(header: string, rest: string)
    ensures var text := "amends \"" + (EscapeString(header) + "\"" + rest);
            |text| >= 8 && text[..8] == "amends \"" && ReadLiteral(text[8..]) == Some((header, rest))
  {
    var text := "amends \"" + (EscapeString(header) + "\"" + rest);
    EscapeIsPerCharacter(header);
    LiteralRoundTrip(header, rest);
    assert text[8..] == EscapeString(header) + "\"" + rest;
  }
}
