/** When the file that `objectToPklSource` (src/config/migrate.ts) prints reads back to the
    object, and what collides when it does not. */
module PklFile {
  import opened Wrappers
  import opened Sequences
  import opened PklPrinter
  import opened PklText
  import opened PklSource

  // ---------------------------------------------------------------- arrays whose text is no word

  /** How many properties and elements there are, at any depth. */
  function Size(e: Entries): nat {
    match e
    case Nil => 0
    case Prop(_, t, more) => 1 + TreeSize(t) + Size(more)
    case Elem(t, more) => 1 + TreeSize(t) + Size(more)
  }

  function TreeSize(t: Tree): nat {
    if t.Leaf? then 0 else Size(t.entries)
  }

  /** The lines that begin a property or an element. */
  function Openers(ls: seq<Line>): nat {
    if ls == [] then 0 else (if ls[0].body.Close? then 0 else 1) + Openers(ls[1..])
  }

  lemma {:induction false} OpenersConcat(a: seq<Line>, b: seq<Line>)
    ensures Openers(a + b) == Openers(a) + Openers(b)
  {
    if a == [] {
      assert a + b == b;
    } else {
      assert (a + b)[1..] == a[1..] + b;
      OpenersConcat(a[1..], b);
    }
  }

  /** Reading lines yields no more entries than they begin. */
  lemma {:induction false} ParseSize(ls: seq<Line>)
    requires Parse(ls).Some?
    ensures Size(Parse(ls).value.0) + Openers(Parse(ls).value.1) <= Openers(ls)
    decreases |ls|
  {
    if ls != [] && !ls[0].body.Close? {
      ParseSize(ls[1..]);
      if Opens(ls[0].body) {
        var inner := Parse(ls[1..]).value;
        ParseSize(inner.1[1..]);
      }
    }
  }

  lemma ScanRest(s: string, rest: seq<string>)
    requires ScanAll([s] + rest).Some?
    ensures Scan(s).Some? && ScanAll(rest).Some?
    ensures Openers(ScanAll([s] + rest).value) ==
              (if Scan(s).value.body.Close? then 0 else 1) + Openers(ScanAll(rest).value)
  {
    assert ([s] + rest)[1..] == rest;
    var l, more := Scan(s).value, ScanAll(rest).value;
    assert ([l] + more)[1..] == more;
  }

  /** A closing line is read as one, so the read lines begin no more than the printed. */
  lemma {:induction false} ScanOpeners(ls: seq<Line>)
    requires ScanAll(RenderAll(ls)).Some?
    ensures Openers(ScanAll(RenderAll(ls)).value) <= Openers(ls)
  {
    if ls != [] {
      RenderRest(ls);
      ScanRest(Render(ls[0]), RenderAll(ls[1..]));
      ScanOpeners(ls[1..]);
      if ls[0].body.Close? { LineRoundTrip(ls[0]); }
    }
  }

  /** Nothing but nulls. */
  predicate Hollow(items: Items) {
    items.Item? ==> items.head.Null? && Hollow(items.tail)
  }

  /** Some array directly inside an array is not hollow (`blank`: has an empty text). */
  predicate Deep(blank: bool, v: Value)
    decreases v
  {
    match v
    case List(items) => DeepItems(blank, items)
    case Object(fields) => DeepFields(blank, fields)
    case _ => false
  }

  predicate DeepFields(blank: bool, fields: Fields)
    decreases fields
  {
    fields.Field? && (Deep(blank, fields.value) || DeepFields(blank, fields.rest))
  }

  predicate DeepItems(blank: bool, items: Items)
    decreases items
  {
    items.Item?
    && (DeepItems(blank, items.tail)
        || if items.head.List? then (if blank then JsText(items.head) == "" else !Hollow(items.head.items))
           else Deep(blank, items.head))
  }

  lemma {:induction false} HollowText(items: Items)
    requires Hollow(items)
    ensures forall i | 0 <= i < |JsJoin(items)| :: JsJoin(items)[i] == ','
  {
    if items.Item? && items.tail.Item? { HollowText(items.tail); }
  }

  lemma HollowIsWord(items: Items)
    requires Hollow(items)
    ensures JsText(List(items)) == "" || RawOk(JsText(List(items)))
  {
    HollowText(items);
    assert JsText(List(items)) == JsJoin(items);
  }

  /** An array inside an array is a word, or empty text, or not hollow. */
  lemma {:induction false} NoWordIsDeep(v: Value)
    requires Printable(false, v) && !Printable(true, v)
    ensures Deep(false, v) || Deep(true, v)
    decreases v
  {
    match v
    case List(items) => NoWordItems(items);
    case Object(fields) => NoWordFields(fields);
    case _ =>
  }

  lemma {:induction false} NoWordFields(fields: Fields)
    requires PrintableFields(false, fields) && !PrintableFields(true, fields)
    ensures DeepFields(false, fields) || DeepFields(true, fields)
    decreases fields
  {
    if Printable(true, fields.value) { NoWordFields(fields.rest); } else { NoWordIsDeep(fields.value); }
  }

  lemma {:induction false} NoWordItems(items: Items)
    requires PrintableItems(false, items) && !PrintableItems(true, items)
    ensures DeepItems(false, items) || DeepItems(true, items)
    decreases items
  {
    if items.head.List? {
      if Hollow(items.head.items) { HollowIsWord(items.head.items); }
      if NestedOk(true, JsText(items.head)) { NoWordItems(items.tail); }
    } else if Printable(true, items.head) {
      NoWordItems(items.tail);
    } else {
      NoWordIsDeep(items.head);
    }
  }

  lemma {:induction false} DeepIsNotFlat(blank: bool, v: Value)
    requires Deep(blank, v)
    ensures !Flat(v)
    decreases v
  {
    match v
    case List(items) => DeepItemsAreNotFlat(blank, items);
    case Object(fields) => DeepFieldsAreNotFlat(blank, fields);
    case _ =>
  }

  lemma {:induction false} DeepFieldsAreNotFlat(blank: bool, fields: Fields)
    requires DeepFields(blank, fields)
    ensures !FlatFields(fields)
    decreases fields
  {
    if Deep(blank, fields.value) {
      DeepIsNotFlat(blank, fields.value);
    } else {
      DeepFieldsAreNotFlat(blank, fields.rest);
    }
  }

  lemma {:induction false} DeepItemsAreNotFlat(blank: bool, items: Items)
    requires DeepItems(blank, items)
    ensures !FlatItems(items)
    decreases items
  {
    if DeepItems(blank, items.tail) {
      DeepItemsAreNotFlat(blank, items.tail);
    } else if !items.head.List? {
      DeepIsNotFlat(blank, items.head);
    }
  }

  // ---------------------------------------------------------------- not hollow: too few entries

  lemma WrapOpeners(k: KeyText, t: Option<string>, inner: seq<Line>, indent: nat)
    ensures Openers(Wrap(k, t, inner, indent)) == 1 + Openers(inner)
  {
    BracketOpeners(Line(indent, Open(k, t)), inner, Line(indent, Close));
    OneOpener(Line(indent, OpenClose(k, t)));
  }

  lemma OneOpener(l: Line)
    ensures Openers([l]) == if l.body.Close? then 0 else 1
  {
    var none: seq<Line> := [];
    assert [l][1..] == none && Openers(none) == 0;
  }

  lemma BracketOpeners(head: Line, inner: seq<Line>, close: Line)
    requires !head.body.Close? && close.body.Close?
    ensures Openers([head] + inner + [close]) == 1 + Openers(inner)
  {
    OpenersConcat([head] + inner, [close]);
    OpenersConcat([head], inner);
    OneOpener(head);
    OneOpener(close);
  }

  /** The object has at least as many entries as its lines begin, and more if some array
      inside an array is not hollow. */
  lemma {:induction false} FieldsSize(fields: Fields, indent: nat, path: seq<string>)
    ensures Openers(ObjectLines(fields, indent, path)) <= Size(MeaningOfFields(fields, path))
    ensures DeepFields(false, fields) ==>
        Openers(ObjectLines(fields, indent, path)) < Size(MeaningOfFields(fields, path))
    decreases fields
  {
    if fields.Field? {
      FieldSize(fields.key, fields.value, indent, path);
      FieldsSize(fields.rest, indent, path);
      OpenersConcat(FieldLines(fields.key, fields.value, indent, path), ObjectLines(fields.rest, indent, path));
    }
  }

  lemma {:induction false} FieldSize(key: string, v: Value, indent: nat, path: seq<string>)
    ensures var n := if v.Null? then 0 else 1 + TreeSize(MeaningOf(v, ChildPath(path, key)));
            && Openers(FieldLines(key, v, indent, path)) <= n
            && (Deep(false, v) ==> Openers(FieldLines(key, v, indent, path)) < n)
    decreases v
  {
    var k, child := KeyAt(path, key), ChildPath(path, key);
    match v
    case Null =>
    case Scalar(s) => OneOpener(Line(indent, Assign(k, s)));
    case List(items) =>
      ItemsSize(items, indent, child);
      WrapOpeners(k, None, ArrayLines(items, indent, child), indent);
    case Object(fields) =>
      FieldsSize(fields, indent + 1, child);
      WrapOpeners(k, TypeName(child), ObjectLines(fields, indent + 1, child), indent);
  }

  lemma {:induction false} ItemsSize(items: Items, indent: nat, path: seq<string>)
    ensures Openers(ArrayLines(items, indent, path)) <= Size(MeaningOfItems(items, path))
    ensures DeepItems(false, items) ==> Openers(ArrayLines(items, indent, path)) < Size(MeaningOfItems(items, path))
    decreases items
  {
    if items.Item? {
      ItemSize(items.head, indent, path);
      ItemsSize(items.tail, indent, path);
      OpenersConcat(ItemLines(items.head, indent, path), ArrayLines(items.tail, indent, path));
    }
  }

  lemma {:induction false} ItemSize(v: Value, indent: nat, path: seq<string>)
    ensures var n := if v.Null? then 0 else 1 + TreeSize(MeaningOf(v, ItemPath(path)));
            && Openers(ItemLines(v, indent, path)) <= n
            && ((if v.List? then !Hollow(v.items) else Deep(false, v)) ==> Openers(ItemLines(v, indent, path)) < n)
    decreases v
  {
    match v
    case Null =>
    case Scalar(s) => OneOpener(Line(indent + 1, Element(s)));
    case List(items) =>
      OneOpener(Line(indent + 1, Element(Raw(JsText(v)))));
      HollowIsNil(items, ItemPath(path));
    case Object(fields) =>
      FieldsSize(fields, indent + 2, ItemPath(path));
      OneOpener(Line(indent + 1, NewClose));
      BracketOpeners(Line(indent + 1, NewOpen), ObjectLines(fields, indent + 2, ItemPath(path)),
          Line(indent + 1, Close));
  }

  lemma {:induction false} HollowIsNil(items: Items, path: seq<string>)
    ensures Hollow(items) <==> Size(MeaningOfItems(items, path)) == 0
  {
    if items.Item? { HollowIsNil(items.tail, path); }
  }

  lemma NotHollowFails(fields: Fields)
    requires PrintableFields(false, fields) && DeepFields(false, fields) && ObjectLines(fields, 0, [""]) != []
    ensures ReadBody(JoinLines(RenderAll(ObjectLines(fields, 0, [""])))) != Some(MeaningOfFields(fields, [""]))
  {
    var ls := ObjectLines(fields, 0, [""]);
    FieldsFit(false, fields, 0, [""]);
    BodySplits(false, ls);
    FieldsSize(fields, 0, [""]);
    if ScanAll(RenderAll(ls)).Some? {
      ScanOpeners(ls);
      if Parse(ScanAll(RenderAll(ls)).value).Some? { ParseSize(ScanAll(RenderAll(ls)).value); }
    }
  }

  // ---------------------------------------------------------------- empty text: no line to read

  predicate BlankAt(ls: seq<Line>, i: nat) {
    i < |ls| && ls[i].body == Element(Raw(""))
  }

  ghost predicate HasBlank(ls: seq<Line>) {
    exists i: nat :: BlankAt(ls, i)
  }

  lemma BlankConcat(a: seq<Line>, b: seq<Line>)
    requires HasBlank(a) || HasBlank(b)
    ensures HasBlank(a + b)
  {
    if i: nat :| BlankAt(a, i) {
      assert BlankAt(a + b, i);
    } else {
      var i: nat :| BlankAt(b, i);
      assert BlankAt(a + b, |a| + i);
    }
  }

  lemma BlankWrap(k: KeyText, t: Option<string>, inner: seq<Line>, indent: nat)
    requires HasBlank(inner)
    ensures HasBlank(Wrap(k, t, inner, indent))
  {
    BlankConcat([Line(indent, Open(k, t))], inner);
    BlankConcat([Line(indent, Open(k, t))] + inner, [Line(indent, Close)]);
  }

  lemma {:induction false} BlankFields(fields: Fields, indent: nat, path: seq<string>)
    requires DeepFields(true, fields)
    ensures HasBlank(ObjectLines(fields, indent, path))
    decreases fields
  {
    if Deep(true, fields.value) {
      BlankField(fields.key, fields.value, indent, path);
    } else {
      BlankFields(fields.rest, indent, path);
    }
    BlankConcat(FieldLines(fields.key, fields.value, indent, path), ObjectLines(fields.rest, indent, path));
  }

  lemma {:induction false} BlankField(key: string, v: Value, indent: nat, path: seq<string>)
    requires Deep(true, v)
    ensures HasBlank(FieldLines(key, v, indent, path))
    decreases v
  {
    var k, child := KeyAt(path, key), ChildPath(path, key);
    match v
    case List(items) =>
      BlankItems(items, indent, child);
      BlankWrap(k, None, ArrayLines(items, indent, child), indent);
    case Object(fields) =>
      BlankFields(fields, indent + 1, child);
      BlankWrap(k, TypeName(child), ObjectLines(fields, indent + 1, child), indent);
  }

  lemma {:induction false} BlankItems(items: Items, indent: nat, path: seq<string>)
    requires DeepItems(true, items)
    ensures HasBlank(ArrayLines(items, indent, path))
    decreases items
  {
    if DeepItems(true, items.tail) {
      BlankItems(items.tail, indent, path);
    } else {
      BlankItem(items.head, indent, path);
    }
    BlankConcat(ItemLines(items.head, indent, path), ArrayLines(items.tail, indent, path));
  }

  lemma {:induction false} BlankItem(v: Value, indent: nat, path: seq<string>)
    requires if v.List? then JsText(v) == "" else Deep(true, v)
    ensures HasBlank(ItemLines(v, indent, path))
    decreases v
  {
    match v
    case List(_) => assert BlankAt(ItemLines(v, indent, path), 0);
    case Object(fields) =>
      var inner := ObjectLines(fields, indent + 2, ItemPath(path));
      BlankFields(fields, indent + 2, ItemPath(path));
      BlankConcat([Line(indent + 1, NewOpen)], inner);
      BlankConcat([Line(indent + 1, NewOpen)] + inner, [Line(indent + 1, Close)]);
  }

  lemma BlankLine(n: nat)
    ensures Scan(Render(Line(n, Element(Raw(""))))).None?
  {
    assert Render(Line(n, Element(Raw("")))) == Spaces(n) + "";
    TrimSpaces(n, "");
  }

  lemma ScanNothing(s: string, rest: seq<string>)
    requires Scan(s).None? || ScanAll(rest).None?
    ensures ScanAll([s] + rest).None?
  {
    assert ([s] + rest)[1..] == rest;
  }

  lemma {:induction false} BlankFails(ls: seq<Line>, i: nat)
    requires BlankAt(ls, i)
    ensures ScanAll(RenderAll(ls)).None?
  {
    if i == 0 { BlankLine(ls[0].indent); } else { BlankFails(ls[1..], i - 1); }
    RenderRest(ls);
    ScanNothing(Render(ls[0]), RenderAll(ls[1..]));
  }

  // ---------------------------------------------------------------- when the file reads back

  lemma NestedFails(header: string, fields: Fields)
    requires PrintableFields(false, fields) && !PrintableFields(true, fields)
    ensures !FlatFields(fields) && ReadSource(Source(header, fields)) != Some((header, MeaningOfFields(fields, [""])))
  {
    var ls := ObjectLines(fields, 0, [""]);
    NoWordFields(fields);
    var blank := DeepFields(true, fields);
    DeepFieldsAreNotFlat(blank, fields);
    FieldsSize(fields, 0, [""]);
    if blank {
      BlankFields(fields, 0, [""]);
      var i: nat :| BlankAt(ls, i);
      BlankFails(ls, i);
      FieldsFit(false, fields, 0, [""]);
      BodySplits(false, ls);
    } else {
      if ls == [] { DeepHasLines(fields, 0, [""]); }
      NotHollowFails(fields);
    }
    SourceIsBody(header, fields);
  }

  lemma DeepHasLines(fields: Fields, indent: nat, path: seq<string>)
    requires DeepFields(false, fields)
    ensures ObjectLines(fields, indent, path) != []
  {
    FieldsReadBack(true, fields, indent, path, []);
    DeepIsSeen(fields, path);
  }

  lemma {:induction false} DeepIsSeen(fields: Fields, path: seq<string>)
    requires DeepFields(false, fields)
    ensures SeenFields(true, fields, path) != Nil
  {
    if fields.value.Null? { DeepIsSeen(fields.rest, path); }
  }

  /** For every tree whose numbers and booleans are words and whose arrays inside arrays
      have texts of one line: the file reads back to its header and to the printed object,
      up to dropped nulls, renamed kebab-case keys and the identification of the empty list
      with the empty object, if and only if no array stands directly inside an array and no
      block without a type stands under a key that is printed as the bare word `new`. */
  lemma SourceReadsBack(header: string, fields: Fields)
    requires PrintableFields(false, fields)
    ensures ReadSource(Source(header, fields)) == Some((header, MeaningOfFields(fields, [""])))
            <==> FlatFields(fields) && !FieldsHaveShadow(fields, [""])
  {
    if PrintableFields(true, fields) {
      SourceIsSeen(header, fields);
      SeenFieldsAreMeant(true, fields, [""]);
    } else {
      NestedFails(header, fields);
    }
  }

  // ---------------------------------------------------------------- a collision

  lemma RenderConcat(a: seq<Line>, b: seq<Line>)
    ensures RenderAll(a + b) == RenderAll(a) + RenderAll(b)
  {
    MapConcat(Render, a, b);
  }

  lemma SameText(h1: Line, h2: Line, rest: seq<Line>)
    requires Render(h1) == Render(h2)
    ensures RenderAll([h1] + rest) == RenderAll([h2] + rest)
  {
    MapConcat(Render, [h1], rest);
    MapConcat(Render, [h2], rest);
    MapOne(Render, h1);
    MapOne(Render, h2);
  }

  /** For instance, an object whose one block stands under `new` prints
      the same text as the list of that block, though they are different values. */
  lemma NewCollides(key: string, inside: Fields, indent: nat, path: seq<string>)
    requires var c := ChildPath(path, key);
             && KeyAt(c, "new") == Bare("new") && TypeName(c).None? && TypeName(ChildPath(c, "new")).None?
             && ObjectLines(inside, indent + 2, ChildPath(c, "new")) ==
                 ObjectLines(inside, indent + 2, ItemPath(c)) != []
    ensures var v, w := Object(Field("new", Object(inside), NoFields)), List(Item(Object(inside), NoItems));
            && RenderAll(FieldLines(key, v, indent, path)) == RenderAll(FieldLines(key, w, indent, path))
            && MeaningOf(v, ChildPath(path, key)) != MeaningOf(w, ChildPath(path, key))
  {
    var c := ChildPath(path, key);
    var v, w := Field("new", Object(inside), NoFields), Item(Object(inside), NoItems);
    SameBlocks(inside, indent, c);
    WrapText(KeyAt(path, key), ObjectLines(v, indent + 1, c), ArrayLines(w, indent, c), indent);
    assert MeaningOfFields(v, c).Prop? && MeaningOfItems(w, c).Elem?;
  }

  predicate NewBlock(inside: Fields, indent: nat, c: seq<string>) {
    && KeyAt(c, "new") == Bare("new") && TypeName(ChildPath(c, "new")).None?
    && ObjectLines(inside, indent + 2, ChildPath(c, "new")) == ObjectLines(inside, indent + 2, ItemPath(c)) != []
  }

  lemma BlockLines(inside: Fields, indent: nat, c: seq<string>)
    requires NewBlock(inside, indent, c)
    ensures var inner := ObjectLines(inside, indent + 2, ItemPath(c));
            && ObjectLines(Field("new", Object(inside), NoFields), indent + 1, c) ==
                 [Line(indent + 1, Open(Bare("new"), None))] + inner + [Line(indent + 1, Close)]
            && ArrayLines(Item(Object(inside), NoItems), indent, c) ==
                 [Line(indent + 1, NewOpen)] + inner + [Line(indent + 1, Close)]
  {
    OneFieldLines("new", Object(inside), indent + 1, c);
    OneItemLines(Object(inside), indent, c);
  }

  lemma SameBlocks(inside: Fields, indent: nat, c: seq<string>)
    requires NewBlock(inside, indent, c)
    ensures var a, b := ObjectLines(Field("new", Object(inside), NoFields), indent + 1, c),
                        ArrayLines(Item(Object(inside), NoItems), indent, c);
            a != [] && b != [] && RenderAll(a) == RenderAll(b)
  {
    var inner, close := ObjectLines(inside, indent + 2, ItemPath(c)), [Line(indent + 1, Close)];
    var h1, h2 := Line(indent + 1, Open(Bare("new"), None)), Line(indent + 1, NewOpen);
    BlockLines(inside, indent, c);
    NewLooksLikeAnElement(indent + 1);
    SameText(h1, h2, inner + close);
    Regroup([h1], inner, close);
    Regroup([h2], inner, close);
  }

  lemma OneFieldLines(key: string, v: Value, indent: nat, path: seq<string>)
    ensures ObjectLines(Field(key, v, NoFields), indent, path) == FieldLines(key, v, indent, path)
  {
    assert ObjectLines(NoFields, indent, path) == [];
  }

  lemma OneItemLines(v: Value, indent: nat, path: seq<string>)
    ensures ArrayLines(Item(v, NoItems), indent, path) == ItemLines(v, indent, path)
  {
    assert ArrayLines(NoItems, indent, path) == [];
  }

  lemma NewLooksLikeAnElement(indent: nat)
    ensures Render(Line(indent, Open(Bare("new"), None))) == Render(Line(indent, NewOpen))
  {
    assert "new" + " {" == "new {";
  }

  lemma WrapText(k: KeyText, a: seq<Line>, b: seq<Line>, indent: nat)
    requires RenderAll(a) == RenderAll(b) && a != [] && b != []
    ensures RenderAll(Wrap(k, None, a, indent)) == RenderAll(Wrap(k, None, b, indent))
  {
    var open, close := [Line(indent, Open(k, None))], [Line(indent, Close)];
    RenderConcat(open, a);
    RenderConcat(open, b);
    RenderConcat(open + a, close);
    RenderConcat(open + b, close);
  }
}
