/** The Pkl printer of src/config/migrate.ts on the level of lines: what
    `objectToLines` and `arrayToLines` print, and a parser that recovers it. */
module PklPrinter {
  import opened Wrappers
  import opened Sequences

  /** A string, or the text of a number or boolean. */
  datatype Scalar = Str(text: string) | Raw(text: string)

  datatype Value = Null | Scalar(scalar: Scalar) | List(items: Items) | Object(fields: Fields)
  datatype Items = NoItems | Item(head: Value, tail: Items)
  datatype Fields = NoFields | Field(key: string, value: Value, rest: Fields)

  // ---------------------------------------------------------------- keys

  const KEBAB_KEYS: set<string> := {
    "agent-args", "arg-regex", "default-scope", "detach-key", "extra-mounts", "forward-ports",
    "idle-timeout", "inherit-env", "mount-socket", "on-create", "source-address", "timeout-seconds"
  }

  predicate Lower(c: char) { 'a' <= c <= 'z' }

  function ToUpper(c: char): char
    requires Lower(c)
  {
    c - 'a' + 'A'
  }

  /** Each `-x` becomes `X`. */
  function KebabToCamel(key: string): string {
    if |key| < 2 then key
    else if key[0] == '-' && Lower(key[1]) then [ToUpper(key[1])] + KebabToCamel(key[2..])
    else [key[0]] + KebabToCamel(key[1..])
  }

  predicate IdentStart(c: char) { 'a' <= c <= 'z' || 'A' <= c <= 'Z' || c == '_' }

  predicate IdentChar(c: char) { IdentStart(c) || '0' <= c <= '9' }

  predicate Ident(key: string) {
    key != "" && IdentStart(key[0]) && forall i | 0 <= i < |key| :: IdentChar(key[i])
  }

  /** A key as it is printed: bare, or in brackets as an escaped string. */
  datatype KeyText = Bare(name: string) | Bracket(name: string)

  function FormatKey(key: string): KeyText {
    if key in KEBAB_KEYS then Bare(KebabToCamel(key)) else if Ident(key) then Bare(key) else Bracket(key)
  }

  // ---------------------------------------------------------------- paths

  /** The segments of `s.split(".")`. */
  function SplitDots(s: string): (p: seq<string>)
    ensures p != []
  {
    if s == "" then [""]
    else if s[0] == '.' then [""] + SplitDots(s[1..])
    else var p := SplitDots(s[1..]); [[s[0]] + p[0]] + p[1..]
  }

  /** The segments of the path of a child; the root path is the empty string. */
  function ChildPath(path: seq<string>, key: string): seq<string> {
    if path == [""] then SplitDots(key) else path + SplitDots(key)
  }

  predicate MatchPath(pattern: seq<string>, path: seq<string>) {
    |pattern| == |path| && forall i | 0 <= i < |pattern| :: pattern[i] == "*" || pattern[i] == path[i]
  }

  predicate MappingParent(path: seq<string>) {
    || MatchPath(["profiles"], path)
    || MatchPath(["profiles", "*", "hostexec", "secrets"], path)
    || MatchPath(["profiles", "*", "hostexec", "rules", "*", "env"], path)
  }

  function TypeName(path: seq<string>): Option<string> {
    if MatchPath(["profiles", "*", "worktree"], path) then Some("WorktreeConfig")
    else if MatchPath(["profiles", "*", "hostexec"], path) then Some("HostExecConfig")
    else None
  }

  function KeyAt(path: seq<string>, key: string): KeyText {
    if MappingParent(path) then Bracket(key) else FormatKey(key)
  }

  // ---------------------------------------------------------------- lines

  datatype Body =
    | Assign(key: KeyText, scalar: Scalar)
    | Open(key: KeyText, typeName: Option<string>)
    | OpenClose(key: KeyText, typeName: Option<string>)
    | Element(scalar: Scalar)
    | NewOpen | NewClose | Close

  datatype Line = Line(indent: nat, body: Body)

  /** `String(value)`, which is what an array inside an array falls back to. */
  function JsText(v: Value): string
    decreases v
  {
    match v
    case Null => ""
    case Scalar(s) => s.text
    case List(items) => JsJoin(items)
    case Object(_) => "[object Object]"
  }

  function JsJoin(items: Items): string
    decreases items
  {
    match items
    case NoItems => ""
    case Item(v, NoItems) => JsText(v)
    case Item(v, rest) => JsText(v) + "," + JsJoin(rest)
  }

  function ObjectLines(fields: Fields, indent: nat, path: seq<string>): seq<Line>
    decreases fields
  {
    match fields
    case NoFields => []
    case Field(key, v, rest) => FieldLines(key, v, indent, path) + ObjectLines(rest, indent, path)
  }

  function FieldLines(key: string, v: Value, indent: nat, path: seq<string>): seq<Line>
    decreases v
  {
    var k, child := KeyAt(path, key), ChildPath(path, key);
    match v
    case Null => []
    case Scalar(s) => [Line(indent, Assign(k, s))]
    case List(items) => Wrap(k, None, ArrayLines(items, indent, child), indent)
    case Object(fields) => Wrap(k, TypeName(child), ObjectLines(fields, indent + 1, child), indent)
  }

  function Wrap(k: KeyText, typeName: Option<string>, inner: seq<Line>, indent: nat): seq<Line> {
    if inner == [] then [Line(indent, OpenClose(k, typeName))]
    else [Line(indent, Open(k, typeName))] + inner + [Line(indent, Close)]
  }

  function ItemPath(path: seq<string>): seq<string> {
    if path == [""] then ["*"] else path + ["*"]
  }

  function ArrayLines(items: Items, indent: nat, path: seq<string>): seq<Line>
    decreases items
  {
    match items
    case NoItems => []
    case Item(v, rest) => ItemLines(v, indent, path) + ArrayLines(rest, indent, path)
  }

  function ItemLines(v: Value, indent: nat, path: seq<string>): seq<Line>
    decreases v
  {
    match v
    case Null => []
    case Scalar(s) => [Line(indent + 1, Element(s))]
    case List(_) => [Line(indent + 1, Element(Raw(JsText(v))))]
    case Object(fields) =>
      var inner := ObjectLines(fields, indent + 2, ItemPath(path));
      if inner == [] then [Line(indent + 1, NewClose)]
      else [Line(indent + 1, NewOpen)] + inner + [Line(indent + 1, Close)]
  }

  // ---------------------------------------------------------------- the parser

  /** What a Pkl source denotes: blocks of named properties and of elements, in order. */
  datatype Tree = Leaf(scalar: Scalar) | Block(entries: Entries)
  datatype Entries = Nil | Prop(name: string, tree: Tree, more: Entries) | Elem(tree: Tree, more: Entries)

  /** Reads entries up to the end of the block; `None`: unbalanced. */
  function Parse(ls: seq<Line>): (r: Option<(Entries, seq<Line>)>)
    ensures r.Some? ==> |r.value.1| <= |ls|
    decreases |ls|
  {
    if ls == [] || ls[0].body.Close? then Some((Nil, ls))
    else
      match ls[0].body
      case Assign(k, s) => Then(true, k.name, Leaf(s), Parse(ls[1..]))
      case OpenClose(k, _) => Then(true, k.name, Block(Nil), Parse(ls[1..]))
      case Element(s) => Then(false, "", Leaf(s), Parse(ls[1..]))
      case NewClose => Then(false, "", Block(Nil), Parse(ls[1..]))
      case Open(k, _) => ParseInner(true, k.name, ls)
      case NewOpen => ParseInner(false, "", ls)
      case Close => None
  }

  function ParseInner(named: bool, name: string, ls: seq<Line>): (r: Option<(Entries, seq<Line>)>)
    requires ls != []
    ensures r.Some? ==> |r.value.1| <= |ls|
    decreases |ls|, 0
  {
    var inner := Parse(ls[1..]);
    if inner.None? || inner.value.1 == [] then None
    else Then(named, name, Block(inner.value.0), Parse(inner.value.1[1..]))
  }

  function Then(named: bool, name: string, t: Tree,
      rest: Option<(Entries, seq<Line>)>): (r: Option<(Entries, seq<Line>)>)
    ensures r.Some? <==> rest.Some?
    ensures r.Some? ==> r.value.1 == rest.value.1
  {
    match rest
    case None => None
    case Some(x) => Some((if named then Prop(name, t, x.0) else Elem(t, x.0), x.1))
  }

  // ---------------------------------------------------------------- meaning

  /** The name a key stands for: kebab-case renamed, except below a mapping. */
  function NameAt(path: seq<string>, key: string): string {
    if !MappingParent(path) && key in KEBAB_KEYS then KebabToCamel(key) else key
  }

  /** Nulls dropped, keys renamed; an empty list and an empty object are the same. */
  function MeaningOfFields(fields: Fields, path: seq<string>): Entries
    decreases fields
  {
    match fields
    case NoFields => Nil
    case Field(key, v, rest) =>
      if v.Null? then MeaningOfFields(rest, path)
      else Prop(NameAt(path, key), MeaningOf(v, ChildPath(path, key)), MeaningOfFields(rest, path))
  }

  function MeaningOf(v: Value, path: seq<string>): Tree
    decreases v
  {
    match v
    case Null => Block(Nil)
    case Scalar(s) => Leaf(s)
    case List(items) => Block(MeaningOfItems(items, path))
    case Object(fields) => Block(MeaningOfFields(fields, path))
  }

  function MeaningOfItems(items: Items, path: seq<string>): Entries
    decreases items
  {
    match items
    case NoItems => Nil
    case Item(v, rest) =>
      if v.Null? then MeaningOfItems(rest, path) else Elem(MeaningOf(v, ItemPath(path)), MeaningOfItems(rest, path))
  }

  /** No array stands directly inside an array. */
  predicate Flat(v: Value)
    decreases v
  {
    match v
    case List(items) => FlatItems(items)
    case Object(fields) => FlatFields(fields)
    case _ => true
  }

  predicate FlatItems(items: Items)
    decreases items
  {
    items.Item? ==> !items.head.List? && Flat(items.head) && FlatItems(items.tail)
  }

  predicate FlatFields(fields: Fields)
    decreases fields
  {
    fields.Field? ==> Flat(fields.value) && FlatFields(fields.rest)
  }

  // ---------------------------------------------------------------- what the lines say

  /** As text, a block under the bare key `new` begins like an element of a list. */
  function See(text: bool, b: Body): Body {
    if text && b == Open(Bare("new"), None) then NewOpen
    else if text && b == OpenClose(Bare("new"), None) then NewClose
    else b
  }

  function SeeLine(text: bool, l: Line): Line {
    Line(l.indent, See(text, l.body))
  }

  function SeeAll(text: bool, ls: seq<Line>): seq<Line> {
    seq(|ls|, i requires 0 <= i < |ls| => SeeLine(text, ls[i]))
  }

  /** The key is printed as the bare word `new` over a block without a type. */
  predicate Shadowed(key: string, v: Value, path: seq<string>) {
    KeyAt(path, key) == Bare("new") && (v.List? || (v.Object? && TypeName(ChildPath(path, key)).None?))
  }

  /** Some field is shadowed. */
  predicate HasShadow(v: Value, path: seq<string>)
    decreases v
  {
    match v
    case List(items) => ItemsHaveShadow(items, path)
    case Object(fields) => FieldsHaveShadow(fields, path)
    case _ => false
  }

  predicate FieldsHaveShadow(fields: Fields, path: seq<string>)
    decreases fields
  {
    fields.Field?
    && (Shadowed(fields.key, fields.value, path) || HasShadow(fields.value, ChildPath(path, fields.key))
        || FieldsHaveShadow(fields.rest, path))
  }

  predicate ItemsHaveShadow(items: Items, path: seq<string>)
    decreases items
  {
    items.Item? && (HasShadow(items.head, ItemPath(path)) || ItemsHaveShadow(items.tail, path))
  }

  /** What the printed lines denote: an array directly inside an array is the text of its
      elements, and, as text, a shadowed block is an element. */
  function SeenFields(text: bool, fields: Fields, path: seq<string>): Entries
    decreases fields
  {
    match fields
    case NoFields => Nil
    case Field(key, v, rest) =>
      var more := SeenFields(text, rest, path);
      if v.Null? then more
      else if text && Shadowed(key, v, path) then Elem(SeenOf(text, v, ChildPath(path, key)), more)
      else Prop(NameAt(path, key), SeenOf(text, v, ChildPath(path, key)), more)
  }

  function SeenOf(text: bool, v: Value, path: seq<string>): Tree
    decreases v
  {
    match v
    case Null => Block(Nil)
    case Scalar(s) => Leaf(s)
    case List(items) => Block(SeenItems(text, items, path))
    case Object(fields) => Block(SeenFields(text, fields, path))
  }

  function SeenItems(text: bool, items: Items, path: seq<string>): Entries
    decreases items
  {
    match items
    case NoItems => Nil
    case Item(v, rest) =>
      var more := SeenItems(text, rest, path);
      if v.Null? then more
      else if v.List? then Elem(Leaf(Raw(JsText(v))), more)
      else Elem(SeenOf(text, v, ItemPath(path)), more)
  }

  // ---------------------------------------------------------------- reading back

  predicate Ends(tail: seq<Line>) {
    tail == [] || tail[0].body.Close?
  }

  lemma SeeConcat(text: bool, a: seq<Line>, b: seq<Line>)
    ensures SeeAll(text, a + b) == SeeAll(text, a) + SeeAll(text, b)
  {
  }

  lemma SeeOne(text: bool, l: Line)
    ensures SeeAll(text, [l]) == [SeeLine(text, l)]
  {
  }

  predicate Opens(b: Body) {
    b.Open? || b.NewOpen?
  }

  function KeyName(b: Body): string {
    if b.Open? || b.OpenClose? || b.Assign? then b.key.name else ""
  }

  /** One block: the lines in it, its closing line, and what follows. */
  lemma ParseWrapped(head: Line, inner: seq<Line>, close: Line, tail: seq<Line>, entries: Entries)
    requires Opens(head.body) && close.body.Close?
    requires Parse(inner + ([close] + tail)) == Some((entries, [close] + tail))
    ensures Parse(([head] + inner + [close]) + tail) ==
        Then(head.body.Open?, KeyName(head.body), Block(entries), Parse(tail))
  {
    var ls := ([head] + inner + [close]) + tail;
    assert ls[1..] == inner + ([close] + tail);
    assert ([close] + tail)[1..] == tail;
  }

  lemma ParseOne(l: Line, tail: seq<Line>)
    requires l.body.Assign? || l.body.OpenClose? || l.body.Element? || l.body.NewClose?
    ensures Parse([l] + tail) ==
              Then(l.body.Assign? || l.body.OpenClose?, KeyName(l.body),
                   if l.body.Assign? || l.body.Element? then Leaf(l.body.scalar) else Block(Nil), Parse(tail))
  {
    assert ([l] + tail)[1..] == tail;
  }

  lemma {:induction false} FieldsReadBack(text: bool, fields: Fields, indent: nat, path: seq<string>, tail: seq<Line>)
    requires Ends(tail)
    ensures Parse(SeeAll(text, ObjectLines(fields, indent, path)) + tail) ==
        Some((SeenFields(text, fields, path), tail))
    ensures ObjectLines(fields, indent, path) == [] <==> SeenFields(text, fields, path) == Nil
    decreases fields
  {
    match fields
    case NoFields => assert SeeAll(text, []) + tail == tail;
    case Field(key, v, rest) =>
      var a, b := FieldLines(key, v, indent, path), ObjectLines(rest, indent, path);
      var more := SeeAll(text, b) + tail;
      FieldsReadBack(text, rest, indent, path, tail);
      SeeConcat(text, a, b);
      Regroup(SeeAll(text, a), SeeAll(text, b), tail);
      FieldReadsBack(text, key, v, indent, path, more);
  }

  lemma {:induction false} FieldReadsBack(text: bool, key: string, v: Value, indent: nat, path: seq<string>,
      more: seq<Line>)
    ensures Parse(SeeAll(text, FieldLines(key, v, indent, path)) + more) ==
              if v.Null? then Parse(more)
              else Then(!(text && Shadowed(key, v, path)),
                        if text && Shadowed(key, v, path) then "" else NameAt(path, key),
                        SeenOf(text, v, ChildPath(path, key)), Parse(more))
    ensures FieldLines(key, v, indent, path) == [] <==> v.Null?
    decreases v
  {
    var k, child := KeyAt(path, key), ChildPath(path, key);
    match v
    case Null => assert SeeAll(text, []) + more == more;
    case Scalar(s) =>
      SeeOne(text, Line(indent, Assign(k, s)));
      ParseOne(Line(indent, Assign(k, s)), more);
    case List(items) =>
      ItemsReadBack(text, items, indent, child, [Line(indent, Close)] + more);
      WrapReadsBack(text, k, None, ArrayLines(items, indent, child), indent, more, SeenItems(text, items, child));
    case Object(fields) =>
      FieldsReadBack(text, fields, indent + 1, child, [Line(indent, Close)] + more);
      WrapReadsBack(text, k, TypeName(child), ObjectLines(fields, indent + 1, child), indent, more,
          SeenFields(text, fields, child));
  }

  /** A block is read under its key, or as an element where its first line looks like one. */
  lemma WrapReadsBack(text: bool, k: KeyText, t: Option<string>, inner: seq<Line>, indent: nat, more: seq<Line>,
      entries: Entries)
    requires Parse(SeeAll(text, inner) + ([Line(indent, Close)] + more)) ==
        Some((entries, [Line(indent, Close)] + more))
    requires inner == [] <==> entries == Nil
    ensures var element := text && k == Bare("new") && t == None;
            Parse(SeeAll(text, Wrap(k, t, inner, indent)) + more) ==
              Then(!element, if element then "" else k.name, Block(entries), Parse(more))
  {
    if inner == [] {
      var l := Line(indent, OpenClose(k, t));
      SeeOne(text, l);
      ParseOne(SeeLine(text, l), more);
    } else {
      var head, close := Line(indent, Open(k, t)), Line(indent, Close);
      BracketedSeen(text, head, inner, close);
      ParseWrapped(SeeLine(text, head), SeeAll(text, inner), close, more, entries);
    }
  }

  lemma BracketedSeen(text: bool, head: Line, inner: seq<Line>, close: Line)
    requires close.body == Close
    ensures SeeAll(text, [head] + inner + [close]) == [SeeLine(text, head)] + SeeAll(text, inner) + [close]
  {
    SeeConcat(text, [head] + inner, [close]);
    SeeConcat(text, [head], inner);
    SeeOne(text, head);
    SeeOne(text, close);
  }

  lemma {:induction false} ItemsReadBack(text: bool, items: Items, indent: nat, path: seq<string>, tail: seq<Line>)
    requires Ends(tail)
    ensures Parse(SeeAll(text, ArrayLines(items, indent, path)) + tail) == Some((SeenItems(text, items, path), tail))
    ensures ArrayLines(items, indent, path) == [] <==> SeenItems(text, items, path) == Nil
    decreases items
  {
    match items
    case NoItems => assert SeeAll(text, []) + tail == tail;
    case Item(v, rest) =>
      var a, b := ItemLines(v, indent, path), ArrayLines(rest, indent, path);
      ItemsReadBack(text, rest, indent, path, tail);
      SeeConcat(text, a, b);
      Regroup(SeeAll(text, a), SeeAll(text, b), tail);
      ItemReadsBack(text, v, indent, path, SeeAll(text, b) + tail);
  }

  lemma {:induction false} ItemReadsBack(text: bool, v: Value, indent: nat, path: seq<string>, more: seq<Line>)
    ensures Parse(SeeAll(text, ItemLines(v, indent, path)) + more) ==
              if v.Null? then Parse(more)
              else Then(false, "",
                        if v.List? then Leaf(Raw(JsText(v))) else SeenOf(text, v, ItemPath(path)), Parse(more))
    ensures ItemLines(v, indent, path) == [] <==> v.Null?
    decreases v
  {
    match v
    case Null => assert SeeAll(text, []) + more == more;
    case Scalar(s) =>
      SeeOne(text, Line(indent + 1, Element(s)));
      ParseOne(Line(indent + 1, Element(s)), more);
    case List(_) =>
      SeeOne(text, Line(indent + 1, Element(Raw(JsText(v)))));
      ParseOne(Line(indent + 1, Element(Raw(JsText(v)))), more);
    case Object(fields) =>
      var inner, close := ObjectLines(fields, indent + 2, ItemPath(path)), Line(indent + 1, Close);
      FieldsReadBack(text, fields, indent + 2, ItemPath(path), [close] + more);
      if inner == [] {
        SeeOne(text, Line(indent + 1, NewClose));
        ParseOne(Line(indent + 1, NewClose), more);
      } else {
        BracketedSeen(text, Line(indent + 1, NewOpen), inner, close);
        ParseWrapped(Line(indent + 1, NewOpen), SeeAll(text, inner), close, more,
            SeenFields(text, fields, ItemPath(path)));
      }
  }

  // ---------------------------------------------------------------- when that is what was meant

  lemma {:induction false} SeenIsMeant(text: bool, v: Value, path: seq<string>)
    ensures SeenOf(text, v, path) == MeaningOf(v, path) <==> Flat(v) && !(text && HasShadow(v, path))
    decreases v
  {
    match v
    case List(items) => SeenItemsAreMeant(text, items, path);
    case Object(fields) => SeenFieldsAreMeant(text, fields, path);
    case _ =>
  }

  lemma {:induction false} SeenFieldsAreMeant(text: bool, fields: Fields, path: seq<string>)
    ensures SeenFields(text, fields, path) == MeaningOfFields(fields, path)
            <==> FlatFields(fields) && !(text && FieldsHaveShadow(fields, path))
    decreases fields
  {
    if fields.Field? {
      SeenIsMeant(text, fields.value, ChildPath(path, fields.key));
      SeenFieldsAreMeant(text, fields.rest, path);
    }
  }

  lemma {:induction false} SeenItemsAreMeant(text: bool, items: Items, path: seq<string>)
    ensures SeenItems(text, items, path) == MeaningOfItems(items, path)
            <==> FlatItems(items) && !(text && ItemsHaveShadow(items, path))
    decreases items
  {
    if items.Item? {
      SeenIsMeant(text, items.head, ItemPath(path));
      SeenItemsAreMeant(text, items.tail, path);
    }
  }

  /** The printed lines parse back to the object, up to dropped nulls, renamed kebab-case
      keys and the identification of the empty list with the empty object, if and only
      if no array stands directly inside an array. */
  lemma PrintedLinesParseBack(fields: Fields)
    ensures Parse(ObjectLines(fields, 0, [""])) == Some((MeaningOfFields(fields, [""]), [])) <==> FlatFields(fields)
    ensures Parse(ObjectLines(fields, 0, [""])) == Some((SeenFields(false, fields, [""]), []))
  {
    var ls := ObjectLines(fields, 0, [""]);
    FieldsReadBack(false, fields, 0, [""], []);
    assert SeeAll(false, ls) + [] == ls;
    SeenFieldsAreMeant(false, fields, [""]);
  }

  /** For instance, the list of a list of one scalar prints like the list of that scalar's
      text. */
  lemma NestedArrayIsFlattened(key: string, s: Scalar, indent: nat, path: seq<string>)
    ensures FieldLines(key, List(Item(List(Item(Scalar(s), NoItems)), NoItems)), indent, path)
            == FieldLines(key, List(Item(Scalar(Raw(s.text)), NoItems)), indent, path)
  {
    var outer, flat := Item(List(Item(Scalar(s), NoItems)), NoItems), Item(Scalar(Raw(s.text)), NoItems);
    var child := ChildPath(path, key);
    assert JsJoin(Item(Scalar(s), NoItems)) == s.text;
    assert ItemLines(outer.head, indent, child) == ItemLines(flat.head, indent, child);
    assert ArrayLines(outer, indent, child) == ArrayLines(flat, indent, child);
  }

  // ---------------------------------------------------------------- the loops

  /** `objectToLines`. */
  method ObjectToLines(fields: Fields, indent: nat, path: seq<string>)
    returns (lines: seq<Line>)
    ensures lines == ObjectLines(fields, indent, path)
    decreases fields
  {
    lines := [];
    var rest := fields;
    while rest.Field?
      invariant lines + ObjectLines(rest, indent, path) == ObjectLines(fields, indent, path)
      invariant rest == fields || rest < fields
      decreases rest
    {
      var added := FieldToLines(rest.key, rest.value, indent, path);
      Regroup(lines, added, ObjectLines(rest.rest, indent, path));
      lines := lines + added;
      rest := rest.rest;
    }
  }

  /** The body of that loop. */
  method FieldToLines(key: string, v: Value, indent: nat, path: seq<string>)
    returns (lines: seq<Line>)
    ensures lines == FieldLines(key, v, indent, path)
    decreases v
  {
    var k, child := KeyAt(path, key), ChildPath(path, key);
    match v
    case Null => lines := [];
    case Scalar(s) => lines := [Line(indent, Assign(k, s))];
    case List(items) =>
      lines := ArrayToLines(items, indent, child);
      if lines == [] {
        lines := [Line(indent, OpenClose(k, None))];
      } else {
        lines := [Line(indent, Open(k, None))] + lines + [Line(indent, Close)];
      }
    case Object(inside) =>
      lines := ObjectToLines(inside, indent + 1, child);
      if lines == [] {
        lines := [Line(indent, OpenClose(k, TypeName(child)))];
      } else {
        lines := [Line(indent, Open(k, TypeName(child)))] + lines + [Line(indent, Close)];
      }
  }

  /** `arrayToLines`. */
  method ArrayToLines(items: Items, indent: nat, path: seq<string>)
    returns (lines: seq<Line>)
    ensures lines == ArrayLines(items, indent, path)
    decreases items
  {
    lines := [];
    var rest := items;
    while rest.Item?
      invariant lines + ArrayLines(rest, indent, path) == ArrayLines(items, indent, path)
      invariant rest == items || rest < items
      decreases rest
    {
      var added := ItemToLines(rest.head, indent, path);
      Regroup(lines, added, ArrayLines(rest.tail, indent, path));
      lines := lines + added;
      rest := rest.tail;
    }
  }

  method ItemToLines(v: Value, indent: nat, path: seq<string>)
    returns (lines: seq<Line>)
    ensures lines == ItemLines(v, indent, path)
    decreases v
  {
    match v
    case Null => lines := [];
    case Scalar(s) => lines := [Line(indent + 1, Element(s))];
    case List(_) => lines := [Line(indent + 1, Element(Raw(JsText(v))))];
    case Object(inside) =>
      lines := ObjectToLines(inside, indent + 2, ItemPath(path));
      if lines == [] {
        lines := [Line(indent + 1, NewClose)];
      } else {
        lines := [Line(indent + 1, NewOpen)] + lines + [Line(indent + 1, Close)];
      }
  }
}
