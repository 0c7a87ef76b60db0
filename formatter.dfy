/**
 * The value formatter of the HTTP client: formatValue, prettyPrint and getType.
 * `Format` and `Render` are the texts formatValue and prettyPrint return;
 * the methods `FormatValue` and `PrettyPrint` build those texts the way the
 * client does, collecting one item per element in a loop and imploding them.
 */
module Formatter {
  import opened Wrappers
  import opened Text
  import opened Values

  /** Nesting deeper than this is not descended into. */
  const MaxDepth: nat := 10

  /** What any value nested deeper than MaxDepth is shown as. */
  const Ellipsis: string := "..."

  /** How an array key is shown in an associative array: quoted if a string, bare if an integer. */
  function KeyLiteral(k: Key): string {
    match k
    case StrKey(s) => "'" + s + "'"
    case IntKey(i) => Decimal(i)
  }

  /** How a field name is shown in an object: the key interpolated as it is. */
  function KeyName(k: Key): string {
    match k
    case StrKey(s) => s
    case IntKey(i) => Decimal(i)
  }

  /** The keys are exactly the integers 0..n-1 in order. */
  predicate IsList(es: seq<(Key, Value)>) {
    forall i :: 0 <= i < |es| ==> es[i].0 == IntKey(i)
  }

  /** The text put before an array element's value: the key and ` => `, or nothing for a list. */
  function KeyPrefix(k: Key, assoc: bool): string {
    if assoc then KeyLiteral(k) + " => " else ""
  }

  /** The fields an object is shown with: `__debugInfo()` if defined, else `toArray()`, else its public properties. */
  function Fields(v: Value): seq<(Key, Value)>
    requires v.Obj?
  {
    if v.debugInfo.Returns? then v.debugInfo.fields
    else if v.toArray.Returns? then v.toArray.fields
    else v.props
  }

  /** Orders the mutual recursion: formatValue hands compound values on, prettyPrint hands scalars back. */
  function Rank(v: Value): nat {
    if v.IsCompound() then 1 else 0
  }

  /** The text formatValue returns. */
  function Format(v: Value): string
    decreases v, Rank(v)
  {
    match v
    case Null => "null"
    case Bool(b) => if b then "true" else "false"
    case Str(s) => "\"" + s + "\""
    case Int(i) => Decimal(i)
    case _ => Render(v, 0)
  }

  /** The text prettyPrint returns for a value at the given nesting depth. */
  function Render(v: Value, depth: nat): string
    decreases v, 1 - Rank(v)
  {
    if depth > MaxDepth then Ellipsis
    else match v
      case Arr(es) =>
        if |es| == 0 then "[]"
        else
          var assoc := !IsList(es);
          "[\n" + Join(seq(|es|, i requires 0 <= i < |es| =>
                         Indent(depth) + "  " + KeyPrefix(es[i].0, assoc) + Render(es[i].1, depth + 1)), ",\n")
          + "\n" + Indent(depth) + "]"
      case Obj(c, _, _, _) =>
        var fs := Fields(v);
        if |fs| == 0 then c + " {}"
        else
          c + " {\n" + Join(seq(|fs|, i requires 0 <= i < |fs| =>
                              Indent(depth) + "  " + KeyName(fs[i].0) + ": " + Render(fs[i].1, depth + 1)), ",\n")
          + "\n" + Indent(depth) + "}"
      case _ => Format(v)
  }

  /** The payload type tag of a dumped value: the class name of an object, else PHP's gettype name. */
  function GetType(v: Value): (r: string)
    ensures v.Obj? ==> r == v.className
    ensures v.Null? ==> r == "NULL"
    ensures v.Bool? ==> r == "boolean"
    ensures v.Int? ==> r == "integer"
    ensures v.Str? ==> r == "string"
    ensures v.Arr? ==> r == "array"
  {
    match v
    case Obj(c, _, _, _) => c
    case Null => "NULL"
    case Bool(_) => "boolean"
    case Int(_) => "integer"
    case Str(_) => "string"
    case Arr(_) => "array"
  }

  /** formatValue: scalars directly, arrays and objects through prettyPrint at depth 0. */
  method FormatValue(v: Value) returns (r: string)
    ensures r == Format(v)
    decreases v, 1 + Rank(v)
  {
    match v {
      case Null => r := "null";
      case Bool(b) => r := if b then "true" else "false";
      case Str(s) => r := "\"" + s + "\"";
      case Int(i) => r := Decimal(i);
      case _ => r := PrettyPrint(v, 0);
    }
  }

  /**
   * prettyPrint: past the depth cap an ellipsis; arrays and objects by
   * collecting one item per element in iteration order and imploding them;
   * anything else through formatValue.
   */
  method PrettyPrint(v: Value, depth: nat) returns (r: string)
    ensures r == Render(v, depth)
    decreases v, 2 - Rank(v)
  {
    var indent := Indent(depth);
    if depth > MaxDepth {
      return Ellipsis;
    }
    match v {
      case Arr(es) =>
        if |es| == 0 {
          return "[]";
        }
        var assoc := !IsList(es);
        var items := ArrayItems(v, depth, assoc);
        assert items == seq(|es|, j requires 0 <= j < |es| =>
          Indent(depth) + "  " + KeyPrefix(es[j].0, assoc) + Render(es[j].1, depth + 1));
        r := "[\n" + Join(items, ",\n") + "\n" + indent + "]";
      case Obj(c, _, _, _) =>
        var props := Fields(v);
        if |props| == 0 {
          return c + " {}";
        }
        var items := ObjectItems(v, depth);
        assert items == seq(|props|, j requires 0 <= j < |props| =>
          Indent(depth) + "  " + KeyName(props[j].0) + ": " + Render(props[j].1, depth + 1));
        r := c + " {\n" + Join(items, ",\n") + "\n" + indent + "}";
      case _ =>
        r := FormatValue(v);
    }
  }

  /** The loop of prettyPrint over an array: one item per element, in order. */
  method ArrayItems(v: Value, depth: nat, assoc: bool) returns (items: seq<string>)
    requires v.Arr?
    ensures |items| == |v.entries|
    ensures forall j :: 0 <= j < |items| ==>
      items[j] == Indent(depth) + "  " + KeyPrefix(v.entries[j].0, assoc) + Render(v.entries[j].1, depth + 1)
    decreases v, 0
  {
    var es := v.entries;
    var indent := Indent(depth);
    items := [];
    for i := 0 to |es|
      invariant |items| == i
      invariant forall j :: 0 <= j < i ==>
        items[j] == indent + "  " + KeyPrefix(es[j].0, assoc) + Render(es[j].1, depth + 1)
    {
      var inner := PrettyPrint(es[i].1, depth + 1);
      items := items + [indent + "  " + KeyPrefix(es[i].0, assoc) + inner];
    }
  }

  /** The loop of prettyPrint over an object's fields: one item per field, in order. */
  method ObjectItems(v: Value, depth: nat) returns (items: seq<string>)
    requires v.Obj?
    ensures |items| == |Fields(v)|
    ensures forall j :: 0 <= j < |items| ==>
      items[j] == Indent(depth) + "  " + KeyName(Fields(v)[j].0) + ": " + Render(Fields(v)[j].1, depth + 1)
    decreases v, 0
  {
    var props := Fields(v);
    var indent := Indent(depth);
    items := [];
    for i := 0 to |props|
      invariant |items| == i
      invariant forall j :: 0 <= j < i ==>
        items[j] == indent + "  " + KeyName(props[j].0) + ": " + Render(props[j].1, depth + 1)
    {
      var inner := PrettyPrint(props[i].1, depth + 1);
      items := items + [indent + "  " + KeyName(props[i].0) + ": " + inner];
    }
  }
}
