/**
 * Properties of the formatter's output: the layout read as rows, the depth
 * cap, the key rule, the field-hook priority and the literal forms.
 */
module FormatterProperties {
  import opened Text
  import opened Values
  import opened Formatter

  // ---------------------------------------------------------------------------
  // The layout as a list of rows
  // ---------------------------------------------------------------------------

  /** Rows with a prefix put in front of the first one. */
  function Prefixed(p: string, rows: seq<string>): (r: seq<string>)
    requires |rows| > 0
    ensures |r| == |rows| && r[0] == p + rows[0] && r[1..] == rows[1..]
  {
    [p + rows[0]] + rows[1..]
  }

  /** Rows with a suffix put after the last one. */
  function Suffixed(rows: seq<string>, s: string): (r: seq<string>)
    requires |rows| > 0
    ensures |r| == |rows| && r[|r| - 1] == rows[|rows| - 1] + s && r[..|r| - 1] == rows[..|rows| - 1]
  {
    rows[..|rows| - 1] + [rows[|rows| - 1] + s]
  }

  function Flatten(gs: seq<seq<string>>): seq<string>
  {
    if |gs| == 0 then [] else gs[0] + Flatten(gs[1..])
  }

  predicate AllNonEmpty(gs: seq<seq<string>>) {
    forall i :: 0 <= i < |gs| ==> |gs[i]| > 0
  }

  /** Every group but the last ends with a comma after its last row. */
  function Separated(gs: seq<seq<string>>): (r: seq<seq<string>>)
    requires AllNonEmpty(gs)
    ensures |r| == |gs| && AllNonEmpty(r)
  {
    seq(|gs|, i requires 0 <= i < |gs| => Suffixed(gs[i], if i < |gs| - 1 then "," else ""))
  }

  /**
   * The output of prettyPrint, row by row: an opening row (`[` or `Class {`);
   * then for every element its own rows, the first of which starts with
   * 2*(depth+1) spaces and the element's key, and the last of which ends with
   * a comma unless it is the last element; then a closing row at 2*depth
   * spaces. A scalar is one row (a string holding a newline still counts as
   * one row here).
   */
  function Rows(v: Value, depth: nat): (rows: seq<string>)
    ensures |rows| > 0
    decreases v, 1 - Rank(v)
  {
    if depth > MaxDepth then [Ellipsis]
    else match v
      case Arr(es) =>
        if |es| == 0 then ["[]"]
        else
          var assoc := !IsList(es);
          ["["]
          + Flatten(Separated(seq(|es|, i requires 0 <= i < |es| =>
              Prefixed(Indent(depth + 1) + KeyPrefix(es[i].0, assoc), Rows(es[i].1, depth + 1)))))
          + [Indent(depth) + "]"]
      case Obj(c, _, _, _) =>
        var fs := Fields(v);
        if |fs| == 0 then [c + " {}"]
        else
          [c + " {"]
          + Flatten(Separated(seq(|fs|, i requires 0 <= i < |fs| =>
              Prefixed(Indent(depth + 1) + KeyName(fs[i].0) + ": ", Rows(fs[i].1, depth + 1)))))
          + [Indent(depth) + "}"]
      case _ => [Format(v)]
  }

  lemma {:induction false} PrefixedJoin(p: string, rows: seq<string>)
    requires |rows| > 0
    ensures Join(Prefixed(p, rows), "\n") == p + Join(rows, "\n")
  {
  }

  lemma {:induction false} SuffixedJoin(rows: seq<string>, s: string)
    requires |rows| > 0
    ensures Join(Suffixed(rows, s), "\n") == Join(rows, "\n") + s
    decreases |rows|
  {
    if |rows| > 1 {
      assert Suffixed(rows, s)[1..] == Suffixed(rows[1..], s);
      SuffixedJoin(rows[1..], s);
    }
  }

  lemma {:induction false} FlattenNonEmpty(gs: seq<seq<string>>)
    requires |gs| > 0 && AllNonEmpty(gs)
    ensures |Flatten(gs)| > 0
  {
  }

  /** Each group joined into one text. */
  function JoinEach(gs: seq<seq<string>>): (r: seq<string>)
    ensures |r| == |gs|
  {
    seq(|gs|, i requires 0 <= i < |gs| => Join(gs[i], "\n"))
  }

  /** Joining the separated groups row by row is imploding the joined groups with `,\n`. */
  lemma {:induction false} JoinGroups(gs: seq<seq<string>>)
    requires |gs| > 0 && AllNonEmpty(gs)
    ensures Join(Flatten(Separated(gs)), "\n") == Join(JoinEach(gs), ",\n")
    decreases |gs|
  {
    var sep := Separated(gs);
    if |gs| == 1 {
      var g := gs[0];
      assert g[|g| - 1] + "" == g[|g| - 1];
      assert g[..|g| - 1] + [g[|g| - 1]] == g;
      assert Suffixed(g, "") == g;
      assert Flatten(sep) == gs[0] + Flatten([]);
      assert Flatten(sep) == gs[0];
    } else {
      var rest := gs[1..];
      assert sep[1..] == Separated(rest);
      assert Flatten(sep) == sep[0] + Flatten(Separated(rest));
      FlattenNonEmpty(Separated(rest));
      JoinAppend(sep[0], Flatten(Separated(rest)), "\n");
      SuffixedJoin(gs[0], ",");
      JoinGroups(rest);
      assert JoinEach(gs)[1..] == JoinEach(rest);
      assert Join(gs[0], "\n") + "," + "\n" == Join(gs[0], "\n") + ",\n";
    }
  }

  /** An opening row, some rows and a closing row, joined. */
  lemma {:induction false} BracketedJoin(open: string, middle: seq<string>, close: string)
    requires |middle| > 0
    ensures Join([open] + middle + [close], "\n") == open + "\n" + Join(middle, "\n") + "\n" + close
  {
    JoinSnoc(middle, close, "\n");
    assert [open] + middle + [close] == [open] + (middle + [close]);
    JoinAppend([open], middle + [close], "\n");
  }

  /** Pairs each prefix with a text, as the item list of a block. */
  function Items(prefixes: seq<string>, texts: seq<string>): (r: seq<string>)
    requires |prefixes| == |texts|
    ensures |r| == |texts|
  {
    seq(|texts|, i requires 0 <= i < |texts| => prefixes[i] + texts[i])
  }

  /** Puts each prefix in front of the first of its rows. */
  function Groups(prefixes: seq<string>, rows: seq<seq<string>>): (r: seq<seq<string>>)
    requires |prefixes| == |rows| && AllNonEmpty(rows)
    ensures |r| == |rows| && AllNonEmpty(r)
  {
    seq(|rows|, i requires 0 <= i < |rows| => Prefixed(prefixes[i], rows[i]))
  }

  /** One block of the layout: items `prefix + text` imploded, read as rows. */
  lemma {:induction false} BlockRows(open: string, close: string, prefixes: seq<string>,
                                     texts: seq<string>, rows: seq<seq<string>>)
    requires |prefixes| == |texts| == |rows| > 0 && AllNonEmpty(rows)
    requires forall i :: 0 <= i < |texts| ==> texts[i] == Join(rows[i], "\n")
    ensures open + "\n" + Join(Items(prefixes, texts), ",\n") + "\n" + close
            == Join([open] + Flatten(Separated(Groups(prefixes, rows))) + [close], "\n")
  {
    var gs := Groups(prefixes, rows);
    var items := Items(prefixes, texts);
    forall i | 0 <= i < |texts| ensures items[i] == JoinEach(gs)[i] {
      PrefixedJoin(prefixes[i], rows[i]);
    }
    assert items == JoinEach(gs);
    JoinGroups(gs);
    FlattenNonEmpty(Separated(gs));
    BracketedJoin(open, Flatten(Separated(gs)), close);
  }

  /** The array case of RenderIsRows, given that it holds for every element. */
  lemma ArrayRows(es: seq<(Key, Value)>, depth: nat)
    requires depth <= MaxDepth && |es| > 0
    requires forall i :: 0 <= i < |es| ==> Render(es[i].1, depth + 1) == Join(Rows(es[i].1, depth + 1), "\n")
    ensures Render(Arr(es), depth) == Join(Rows(Arr(es), depth), "\n")
  {
    var assoc := !IsList(es);
    var prefixes := seq(|es|, i requires 0 <= i < |es| => Indent(depth + 1) + KeyPrefix(es[i].0, assoc));
    var texts := seq(|es|, i requires 0 <= i < |es| => Render(es[i].1, depth + 1));
    var rows := seq(|es|, i requires 0 <= i < |es| => Rows(es[i].1, depth + 1));
    var items := seq(|es|, i requires 0 <= i < |es| =>
      Indent(depth) + "  " + KeyPrefix(es[i].0, assoc) + Render(es[i].1, depth + 1));
    var gs := seq(|es|, i requires 0 <= i < |es| =>
      Prefixed(Indent(depth + 1) + KeyPrefix(es[i].0, assoc), Rows(es[i].1, depth + 1)));
    var close := Indent(depth) + "]";
    assert items == Items(prefixes, texts) by {
      IndentStep(depth);
    }
    assert gs == Groups(prefixes, rows);
    calc {
      Render(Arr(es), depth);
      "[\n" + Join(items, ",\n") + "\n" + Indent(depth) + "]";
      { assert "[" + "\n" == "[\n"; }
      "[" + "\n" + Join(Items(prefixes, texts), ",\n") + "\n" + close;
      { BlockRows("[", close, prefixes, texts, rows); }
      Join(["["] + Flatten(Separated(Groups(prefixes, rows))) + [close], "\n");
      Join(Rows(Arr(es), depth), "\n");
    }
  }

  /** The object case of RenderIsRows, given that it holds for every field. */
  lemma ObjectRows(v: Value, depth: nat)
    requires v.Obj? && depth <= MaxDepth && |Fields(v)| > 0
    requires forall i :: 0 <= i < |Fields(v)| ==>
      Render(Fields(v)[i].1, depth + 1) == Join(Rows(Fields(v)[i].1, depth + 1), "\n")
    ensures Render(v, depth) == Join(Rows(v, depth), "\n")
  {
    var fs := Fields(v);
    var c := v.className;
    var prefixes := seq(|fs|, i requires 0 <= i < |fs| => Indent(depth + 1) + KeyName(fs[i].0) + ": ");
    var texts := seq(|fs|, i requires 0 <= i < |fs| => Render(fs[i].1, depth + 1));
    var rows := seq(|fs|, i requires 0 <= i < |fs| => Rows(fs[i].1, depth + 1));
    var items := seq(|fs|, i requires 0 <= i < |fs| =>
      Indent(depth) + "  " + KeyName(fs[i].0) + ": " + Render(fs[i].1, depth + 1));
    var gs := seq(|fs|, i requires 0 <= i < |fs| =>
      Prefixed(Indent(depth + 1) + KeyName(fs[i].0) + ": ", Rows(fs[i].1, depth + 1)));
    var close := Indent(depth) + "}";
    assert items == Items(prefixes, texts) by {
      IndentStep(depth);
    }
    assert gs == Groups(prefixes, rows);
    calc {
      Render(v, depth);
      c + " {\n" + Join(items, ",\n") + "\n" + Indent(depth) + "}";
      { assert c + " {" + "\n" == c + " {\n"; }
      (c + " {") + "\n" + Join(Items(prefixes, texts), ",\n") + "\n" + close;
      { BlockRows(c + " {", close, prefixes, texts, rows); }
      Join([c + " {"] + Flatten(Separated(Groups(prefixes, rows))) + [close], "\n");
      Join(Rows(v, depth), "\n");
    }
  }

  /** Each shown field value is a part of its object, so recursion over fields terminates. */
  lemma FieldBelow(v: Value, i: nat)
    requires v.Obj? && i < |Fields(v)|
    ensures Fields(v)[i].1 < v
  {
    if v.debugInfo.Returns? {
      assert v.debugInfo.fields[i] in v.debugInfo.fields;
    } else if v.toArray.Returns? {
      assert v.toArray.fields[i] in v.toArray.fields;
    } else {
      assert v.props[i] in v.props;
    }
  }

  /** prettyPrint's text is exactly its rows, one per line. */
  lemma {:induction false} RenderIsRows(v: Value, depth: nat)
    ensures Render(v, depth) == Join(Rows(v, depth), "\n")
    decreases v, 1
  {
    if depth <= MaxDepth && v.Arr? && |v.entries| > 0 {
      ArrayIsRows(v, depth);
    } else if depth <= MaxDepth && v.Obj? && |Fields(v)| > 0 {
      ObjectIsRows(v, depth);
    }
  }

  /** The array case of RenderIsRows, by induction over the elements. */
  lemma {:induction false} ArrayIsRows(v: Value, depth: nat)
    requires depth <= MaxDepth && v.Arr? && |v.entries| > 0
    ensures Render(v, depth) == Join(Rows(v, depth), "\n")
    decreases v, 0
  {
    var es := v.entries;
    forall i | 0 <= i < |es|
      ensures Render(es[i].1, depth + 1) == Join(Rows(es[i].1, depth + 1), "\n")
    {
      RenderIsRows(es[i].1, depth + 1);
    }
    ArrayRows(es, depth);
  }

  /** The object case of RenderIsRows, by induction over the shown fields. */
  lemma {:induction false} ObjectIsRows(v: Value, depth: nat)
    requires depth <= MaxDepth && v.Obj? && |Fields(v)| > 0
    ensures Render(v, depth) == Join(Rows(v, depth), "\n")
    decreases v, 0
  {
    var fs := Fields(v);
    forall i | 0 <= i < |fs|
      ensures Render(fs[i].1, depth + 1) == Join(Rows(fs[i].1, depth + 1), "\n")
    {
      FieldBelow(v, i);
      RenderIsRows(fs[i].1, depth + 1);
    }
    ObjectRows(v, depth);
  }

  // ---------------------------------------------------------------------------
  // The depth cap: only the first MaxDepth + 1 levels reach the output
  // ---------------------------------------------------------------------------

  /** Past the cap every value, whatever its kind, prints as "...". */
  lemma DepthCap(v: Value, depth: nat)
    requires depth > MaxDepth
    ensures Render(v, depth) == "..."
    ensures Rows(v, depth) == ["..."]
  {
  }

  /**
   * The value with everything the formatter does not show removed: a value
   * nested deeper than MaxDepth becomes null, and an object keeps only the
   * fields its hooks select (as its `__debugInfo()` result).
   */
  function Truncate(v: Value, depth: nat): (r: Value)
    decreases v, 1
  {
    if depth > MaxDepth then Null
    else match v
      case Arr(es) => Arr(seq(|es|, i requires 0 <= i < |es| => (es[i].0, Truncate(es[i].1, depth + 1))))
      case Obj(c, _, _, _) =>
        var fs := Fields(v);
        Obj(c, Returns(seq(|fs|, i requires 0 <= i < |fs| => (fs[i].0, Truncate(fs[i].1, depth + 1)))), Undefined, [])
      case _ => v
  }

  /** No path from the root to a scalar passes through more than `h` arrays and objects. */
  predicate NestedWithin(v: Value, h: nat)
    decreases v
  {
    match v
    case Arr(es) => h > 0 && forall i :: 0 <= i < |es| ==> NestedWithin(es[i].1, h - 1)
    case Obj(_, _, _, _) => h > 0 && forall i :: 0 <= i < |Fields(v)| ==> NestedWithin(Fields(v)[i].1, h - 1)
    case _ => true
  }

  /** The cut-off value nests no deeper than the levels that remain above the cap. */
  lemma {:induction false} TruncateNesting(v: Value, depth: nat)
    requires depth <= MaxDepth + 1
    ensures NestedWithin(Truncate(v, depth), MaxDepth + 1 - depth)
    decreases v
  {
    if depth <= MaxDepth {
      match v
      case Arr(es) =>
        forall i | 0 <= i < |es| ensures NestedWithin(Truncate(es[i].1, depth + 1), MaxDepth - depth) {
          TruncateNesting(es[i].1, depth + 1);
        }
      case Obj(_, _, _, _) =>
        var fs := Fields(v);
        forall i | 0 <= i < |fs| ensures NestedWithin(Truncate(fs[i].1, depth + 1), MaxDepth - depth) {
          TruncateNesting(fs[i].1, depth + 1);
        }
      case _ =>
    }
  }

  /** The array case of TruncateRender, given that it holds for every element. */
  lemma TruncateArray(es: seq<(Key, Value)>, depth: nat)
    requires depth <= MaxDepth
    requires forall i :: 0 <= i < |es| ==> Render(Truncate(es[i].1, depth + 1), depth + 1) == Render(es[i].1, depth + 1)
    ensures Render(Truncate(Arr(es), depth), depth) == Render(Arr(es), depth)
  {
    var ts := seq(|es|, i requires 0 <= i < |es| => (es[i].0, Truncate(es[i].1, depth + 1)));
    assert Truncate(Arr(es), depth) == Arr(ts);
    assert IsList(ts) == IsList(es) by {
      assert forall i :: 0 <= i < |es| ==> ts[i].0 == es[i].0;
    }
    var assoc := !IsList(es);
    assert seq(|ts|, i requires 0 <= i < |ts| =>
             Indent(depth) + "  " + KeyPrefix(ts[i].0, assoc) + Render(ts[i].1, depth + 1))
        == seq(|es|, i requires 0 <= i < |es| =>
             Indent(depth) + "  " + KeyPrefix(es[i].0, assoc) + Render(es[i].1, depth + 1));
  }

  /** The object case of TruncateRender, given that it holds for every field. */
  lemma TruncateObject(v: Value, depth: nat)
    requires v.Obj? && depth <= MaxDepth
    requires forall i :: 0 <= i < |Fields(v)| ==>
      Render(Truncate(Fields(v)[i].1, depth + 1), depth + 1) == Render(Fields(v)[i].1, depth + 1)
    ensures Render(Truncate(v, depth), depth) == Render(v, depth)
  {
    var fs := Fields(v);
    var ts := seq(|fs|, i requires 0 <= i < |fs| => (fs[i].0, Truncate(fs[i].1, depth + 1)));
    assert Truncate(v, depth) == Obj(v.className, Returns(ts), Undefined, []);
    assert seq(|ts|, i requires 0 <= i < |ts| =>
             Indent(depth) + "  " + KeyName(ts[i].0) + ": " + Render(ts[i].1, depth + 1))
        == seq(|fs|, i requires 0 <= i < |fs| =>
             Indent(depth) + "  " + KeyName(fs[i].0) + ": " + Render(fs[i].1, depth + 1));
  }

  /** prettyPrint shows nothing of a value that lies below the depth cap. */
  lemma {:induction false} TruncateRender(v: Value, depth: nat)
    ensures Render(Truncate(v, depth), depth) == Render(v, depth)
    decreases v
  {
    if depth <= MaxDepth {
      match v
      case Arr(es) =>
        forall i | 0 <= i < |es|
          ensures Render(Truncate(es[i].1, depth + 1), depth + 1) == Render(es[i].1, depth + 1)
        {
          TruncateRender(es[i].1, depth + 1);
        }
        TruncateArray(es, depth);
      case Obj(_, _, _, _) =>
        var fs := Fields(v);
        forall i | 0 <= i < |fs|
          ensures Render(Truncate(fs[i].1, depth + 1), depth + 1) == Render(fs[i].1, depth + 1)
        {
          TruncateRender(fs[i].1, depth + 1);
        }
        TruncateObject(v, depth);
      case _ =>
    }
  }

  /**
   * The depth cap as a property of formatValue: every value is shown exactly
   * as a value nested at most MaxDepth + 1 levels deep, and two values that
   * agree down to that level are shown identically.
   */
  lemma DepthCapped(v: Value, w: Value)
    ensures NestedWithin(Truncate(v, 0), MaxDepth + 1)
    ensures Format(Truncate(v, 0)) == Format(v)
    ensures Truncate(v, 0) == Truncate(w, 0) ==> Format(v) == Format(w)
  {
    TruncateNesting(v, 0);
    TruncateRender(v, 0);
    TruncateRender(w, 0);
  }

  // ---------------------------------------------------------------------------
  // Keys, hooks, literal forms and type tags
  // ---------------------------------------------------------------------------

  /** `array_keys($value)`. */
  function KeysOf(es: seq<(Key, Value)>): (r: seq<Key>)
    ensures |r| == |es|
  {
    seq(|es|, i requires 0 <= i < |es| => es[i].0)
  }

  /** `range(0, $n - 1)` for n > 0, as keys. */
  function RangeKeys(n: nat): (r: seq<Key>)
    ensures |r| == n
  {
    seq(n, i requires 0 <= i < n => IntKey(i))
  }

  /** Keys are left out exactly when the key list is 0, 1, ..., n-1. */
  lemma KeyRule(es: seq<(Key, Value)>, depth: nat)
    ensures IsList(es) <==> KeysOf(es) == RangeKeys(|es|)
    ensures forall i :: 0 <= i < |es| ==>
      KeyPrefix(es[i].0, !IsList(es)) == if IsList(es) then "" else KeyLiteral(es[i].0) + " => "
  {
    if KeysOf(es) == RangeKeys(|es|) {
      forall i | 0 <= i < |es| ensures es[i].0 == IntKey(i) {
        assert KeysOf(es)[i] == RangeKeys(|es|)[i];
      }
    }
  }

  /** A defined `__debugInfo` decides the fields; `toArray` and the public properties are then ignored. */
  lemma DebugInfoFirst(c: string, fs: seq<(Key, Value)>, t1: Hook, t2: Hook,
                       p1: seq<(Key, Value)>, p2: seq<(Key, Value)>, depth: nat)
    ensures Render(Obj(c, Returns(fs), t1, p1), depth) == Render(Obj(c, Returns(fs), t2, p2), depth)
  {
  }

  /**
   * Without `__debugInfo`, a defined `toArray` decides the fields, as if
   * `__debugInfo` had returned them; the public properties are then ignored.
   */
  lemma ToArraySecond(c: string, fs: seq<(Key, Value)>, p: seq<(Key, Value)>, depth: nat)
    ensures Render(Obj(c, Undefined, Returns(fs), p), depth) == Render(Obj(c, Returns(fs), Undefined, []), depth)
  {
  }

  /** Without either hook the public properties are shown, as if `__debugInfo` had returned them. */
  lemma PublicPropertiesLast(c: string, ps: seq<(Key, Value)>, depth: nat)
    ensures Render(Obj(c, Undefined, Undefined, ps), depth) == Render(Obj(c, Returns(ps), Undefined, []), depth)
  {
  }

  /** The decimal forms the examples use. */
  lemma SmallDecimals()
    ensures Decimal(0) == "0" && Decimal(1) == "1" && Decimal(2) == "2"
    ensures Decimal(42) == "42" && Decimal(-7) == "-7"
  {
  }

  /** The literal forms of formatValue; strings are quoted without escaping. */
  lemma ScalarForms(s: string)
    ensures Format(Null) == "null"
    ensures Format(Bool(true)) == "true" && Format(Bool(false)) == "false"
    ensures Format(Str(s)) == "\"" + s + "\""
    ensures Format(Str(s))[1..|s| + 1] == s
    ensures Format(Int(42)) == "42" && Format(Int(-7)) == "-7"
    ensures Format(Arr([])) == "[]"
  {
  }

  /** A list prints without keys: `[1, 2]`. */
  lemma ListExample()
    ensures Format(Arr([(IntKey(0), Int(1)), (IntKey(1), Int(2))])) == "[\n  1,\n  2\n]"
  {
    SmallDecimals();
    var list := [(IntKey(0), Int(1)), (IntKey(1), Int(2))];
    assert IsList(list);
    var items := seq(|list|, i requires 0 <= i < |list| =>
      Indent(0) + "  " + KeyPrefix(list[i].0, false) + Render(list[i].1, 1));
    assert items[0] == "  1" && items[1] == "  2";
    assert items == ["  1", "  2"];
    assert Join(items, ",\n") == "  1,\n  2";
  }

  /** String keys are quoted: `['a' => 1]`. */
  lemma StringKeyExample()
    ensures Format(Arr([(StrKey("a"), Int(1))])) == "[\n  'a' => 1\n]"
  {
  }

  /** Integer keys that are not 0..n-1 are shown bare: `[1 => 1]`. */
  lemma IntKeyExample()
    ensures Format(Arr([(IntKey(1), Int(1))])) == "[\n  1 => 1\n]"
  {
  }

  /** An object of any class with public properties x and y. */
  lemma ObjectExample(c: string)
    ensures Format(Obj(c, Undefined, Undefined, [(StrKey("x"), Int(1)), (StrKey("y"), Int(2))]))
         == c + " {\n  x: 1,\n  y: 2\n}"
  {
    SmallDecimals();
    var fs := [(StrKey("x"), Int(1)), (StrKey("y"), Int(2))];
    var items := seq(|fs|, i requires 0 <= i < |fs| =>
      Indent(0) + "  " + KeyName(fs[i].0) + ": " + Render(fs[i].1, 1));
    assert items[0] == "  x: 1" && items[1] == "  y: 2";
    assert items == ["  x: 1", "  y: 2"];
    assert Join(items, ",\n") == "  x: 1,\n  y: 2";
  }

  /** An object without fields prints as its class name and an empty pair of braces. */
  lemma EmptyObjectExample()
    ensures Format(Obj("Point", Undefined, Undefined, [])) == "Point {}"
  {
  }

  /** A non-empty array's text opens with a bracket. */
  lemma ArrayOpens(es: seq<(Key, Value)>, depth: nat)
    requires depth <= MaxDepth
    ensures "[" <= Render(Arr(es), depth)
  {
  }

  /** An object's text opens with its class name and a brace. */
  lemma ObjectOpens(v: Value, depth: nat)
    requires v.Obj? && depth <= MaxDepth
    ensures v.className + " {" <= Render(v, depth)
  {
  }

  /** The type tag sent with a dump agrees with the content it is sent with. */
  lemma TypeTagMatchesContent(v: Value)
    ensures v.Obj? ==> GetType(v) + " {" <= Format(v)
    ensures v.Arr? ==> GetType(v) == "array" && "[" <= Format(v)
    ensures v.Str? ==> GetType(v) == "string" && "\"" <= Format(v)
    ensures v.Bool? ==> GetType(v) == "boolean" && Format(v) in {"true", "false"}
    ensures v.Null? ==> GetType(v) == "NULL" && Format(v) == "null"
    ensures v.Int? ==> GetType(v) == "integer" && Format(v) == Decimal(v.i)
  {
  }
}
