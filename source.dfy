/**
 * The value serializer of src/Source.php: `toSource` turns a PHP value into
 * PHP literal text, laying arrays out in one of three forms.
 *
 * The functions below (`Literal` and the ones it uses) state the layout; the
 * methods `ToSource`, `FromArray`, `FromArrayIndexed` and `FromAssocArray`
 * follow the PHP code's statements and loops and are proved to produce exactly
 * that text. The lemmas at the end relate the layout to `implode`-style
 * reference forms.
 */
module Source {
  import opened PhpValues
  import opened PhpStrings

  /** The placeholder that `toSource` returns for a kind it does not handle. */
  const Unknown := "UNKNOW DATA TYPE"

  /** `gettype($value)` is one of 'boolean', 'integer', 'double', 'string'. */
  predicate Inlinable(v: Value)
  {
    v.Bool? || v.Int? || v.Float? || v.Str?
  }

  predicate AllInlinable(es: seq<(Key, Value)>)
  {
    forall i :: 0 <= i < |es| ==> Inlinable(es[i].1)
  }

  /** `array_keys($data)` */
  function KeysOf(es: seq<(Key, Value)>): seq<Key>
  {
    seq(|es|, i requires 0 <= i < |es| => es[i].0)
  }

  /** `range(0, $n - 1)` for a positive `$n` */
  function IndexKeys(n: nat): seq<Key>
  {
    seq(n, i => IntKey(i))
  }

  /** The array is a list: its keys are `0`, `1`, ... in this order (`===`). */
  predicate IsIndexed(es: seq<(Key, Value)>)
  {
    KeysOf(es) == IndexKeys(|es|)
  }

  /**
   * The text that `toSource($vars, $space)` returns.
   *
   * The recursive functions of the layout share one lexicographic
   * termination measure. Its first component is 1 for an array and 0 for
   * anything else, so that `PairLine` may render a key (never an array)
   * through `Literal`. The second is the value whose text is produced. The
   * last number orders the functions that call each other on the same value.
   */
  function Literal(v: Value, space: nat): string
    decreases if v.Arr? then 1 else 0, v, 3
  {
    match v
    case Str(s) => "'" + s + "'"
    case Int(i) => IntToText(i)
    case Float(text) => text
    case Null => "null"
    case Bool(b) => if b then "true" else "false"
    case Arr(es) => ArrayLiteral(es, space)
    case Other => Unknown
  }

  /** The text that `fromArray($data, $space)` returns. */
  function ArrayLiteral(es: seq<(Key, Value)>, space: nat): string
    decreases 1, Arr(es), 2
  {
    if |es| == 0 then "[]"
    else if !IsIndexed(es) then AssocLiteral(es, space)
    else IndexedLiteral(es, space)
  }

  /** The text that `fromArrayIndexed($data, $space)` returns. */
  function IndexedLiteral(es: seq<(Key, Value)>, space: nat): string
    decreases 1, Arr(es), 1
  {
    var inline := AllInlinable(es);
    (if inline then "[" else "[\n")
    + IndexedItems(es, space, inline, |es|)
    + (if inline then "]" else "\n" + Spaces(space) + "]")
  }

  /** The first `k` elements. */
  function IndexedItems(es: seq<(Key, Value)>, space: nat, inline: bool, k: nat): string
    requires k <= |es|
    decreases 1, Arr(es), 0, k
  {
    if k == 0 then "" else IndexedItems(es, space, inline, k - 1) + IndexedItem(es[k - 1], space, inline)
  }

  /**
   * One element: a comma (and, when not inline, a newline) if its key is
   * truthy, then `space + 4` spaces when not inline, then the value
   * rendered at `space + 4`.
   */
  function IndexedItem(e: (Key, Value), space: nat, inline: bool): string
    decreases 1, e.1, 4
  {
    (if KeyTruthy(e.0) then (if inline then "," else ",\n") else "")
    + (if inline then "" else Spaces(space + 4))
    + Literal(e.1, space + 4)
  }

  /** The text that `fromAssocArray($data, $space)` returns. */
  function AssocLiteral(es: seq<(Key, Value)>, space: nat): string
    decreases 1, Arr(es), 1
  {
    "[" + AssocPairs(es, space, |es|) + "\n" + Spaces(space) + "]"
  }

  /** The first `k` pairs, each on a new line. */
  function AssocPairs(es: seq<(Key, Value)>, space: nat, k: nat): string
    requires k <= |es|
    decreases 1, Arr(es), 0, k
  {
    if k == 0 then "" else AssocPairs(es, space, k - 1) + "\n" + PairLine(es[k - 1], space)
  }

  /**
   * One pair: the indentation written twice, the key rendered at
   * indentation 0, ` => `, and the value rendered at `space + 4`.
   */
  function PairLine(e: (Key, Value), space: nat): string
    decreases 1, e.1, 4
  {
    Spaces(2 * space) + Literal(KeyValue(e.0), 0) + " => " + Literal(e.1, space + 4)
  }

  // ---------------------------------------------------------------------
  // The serializer's statements

  method ToSource(v: Value, space: nat) returns (r: string)
    ensures r == Literal(v, space)
    decreases if v.Arr? then 1 else 0, v, 3
  {
    match v {
      case Str(s) => r := "'" + s + "'";
      case Int(i) => r := IntToText(i);
      case Float(text) => r := text;
      case Null => r := "null";
      case Bool(b) => r := if b then "true" else "false";
      case Arr(es) => r := FromArray(es, space);
      case Other => r := Unknown;
    }
  }

  method FromArray(es: seq<(Key, Value)>, space: nat) returns (r: string)
    ensures r == ArrayLiteral(es, space)
    decreases 1, Arr(es), 2
  {
    if |es| == 0 {
      return "[]";
    }
    if KeysOf(es) != IndexKeys(|es|) {
      r := FromAssocArray(es, space);
    } else {
      r := FromArrayIndexed(es, space);
    }
  }

  method FromArrayIndexed(es: seq<(Key, Value)>, space: nat) returns (r: string)
    ensures r == IndexedLiteral(es, space)
    decreases 1, Arr(es), 1
  {
    var inline := true;
    var i := 0;
    while i < |es|
      invariant 0 <= i <= |es|
      invariant inline
      invariant forall j :: 0 <= j < i ==> Inlinable(es[j].1)
    {
      if !Inlinable(es[i].1) {
        inline := false;
        break;
      }
      i := i + 1;
    }
    assert inline == AllInlinable(es);

    var s := Spaces(space);
    var sn := Spaces(space + 4);
    var tx := "[";
    if !inline {
      tx := tx + "\n";
    }
    i := 0;
    while i < |es|
      invariant 0 <= i <= |es|
      invariant tx == (if inline then "[" else "[\n") + IndexedItems(es, space, inline, i)
    {
      var item := GenIndexedItem(es[i], space, inline, sn);
      AppendAssoc(if inline then "[" else "[\n", IndexedItems(es, space, inline, i), item);
      tx := tx + item;
      i := i + 1;
    }
    if !inline {
      tx := tx + "\n";
      tx := tx + s;
    }
    r := tx + "]";
  }

  /** The statements of one iteration of the second loop of `fromArrayIndexed`. */
  method GenIndexedItem(e: (Key, Value), space: nat, inline: bool, sn: string) returns (item: string)
    requires sn == Spaces(space + 4)
    ensures item == IndexedItem(e, space, inline)
    decreases 1, e.1, 4
  {
    item := "";
    if KeyTruthy(e.0) {
      item := item + ",";
      if !inline {
        item := item + "\n";
      }
    }
    if !inline {
      item := item + sn;
    }
    var value := ToSource(e.1, space + 4);
    item := item + value;
  }

  method FromAssocArray(es: seq<(Key, Value)>, space: nat) returns (r: string)
    ensures r == AssocLiteral(es, space)
    decreases 1, Arr(es), 1
  {
    var s := Spaces(space);
    var tx := "[";
    var i := 0;
    while i < |es|
      invariant 0 <= i <= |es|
      invariant tx == "[" + AssocPairs(es, space, i)
    {
      tx := tx + "\n";
      var line := GenPairLine(es[i], space, s);
      tx := tx + line;
      i := i + 1;
    }
    tx := tx + "\n";
    r := tx + s + "]";
  }

  /** The statements of one iteration of `fromAssocArray` after its newline. */
  method GenPairLine(e: (Key, Value), space: nat, s: string) returns (line: string)
    requires s == Spaces(space)
    ensures line == PairLine(e, space)
    decreases 1, e.1, 4
  {
    SpacesAdd(space, space);
    line := s + s;
    var key := ToSource(KeyValue(e.0), 0);
    line := line + key;
    line := line + " => ";
    var value := ToSource(e.1, space + 4);
    line := line + value;
  }

  // ---------------------------------------------------------------------
  // What the layout means

  /** The elements' values rendered at `space`, each with `pad` in front. */
  function Rendered(es: seq<(Key, Value)>, pad: string, space: nat): seq<string>
  {
    seq(|es|, i requires 0 <= i < |es| => pad + Literal(es[i].1, space))
  }

  /** The pairs' lines, in order. */
  function PairLines(es: seq<(Key, Value)>, space: nat): seq<string>
  {
    seq(|es|, i requires 0 <= i < |es| => PairLine(es[i], space))
  }

  /** An array takes the list path exactly when its i-th key is the integer i, for every i. */
  lemma IsIndexedIff(es: seq<(Key, Value)>)
    ensures IsIndexed(es) <==> forall i :: 0 <= i < |es| ==> es[i].0 == IntKey(i)
  {
    if forall i :: 0 <= i < |es| ==> es[i].0 == IntKey(i) {
      assert KeysOf(es) == IndexKeys(|es|);
    }
    if IsIndexed(es) {
      forall i | 0 <= i < |es| ensures es[i].0 == IntKey(i) {
        assert KeysOf(es)[i] == IndexKeys(|es|)[i];
      }
    }
  }

  /** The separator written before every list element but the first. */
  function Separator(inline: bool): string
  {
    if inline then "," else ",\n"
  }

  /** The padding written before every list element. */
  function Padding(space: nat, inline: bool): string
  {
    if inline then "" else Spaces(space + 4)
  }

  /** The k-th element of a list: its separator (none for the first), then the rendered element. */
  lemma IndexedItemAt(es: seq<(Key, Value)>, space: nat, inline: bool, k: nat)
    requires IsIndexed(es) && 1 <= k <= |es|
    ensures IndexedItem(es[k - 1], space, inline)
         == (if k == 1 then "" else Separator(inline)) + Rendered(es, Padding(space, inline), space + 4)[k - 1]
  {
    IsIndexedIff(es);
    assert es[k - 1].0 == IntKey(k - 1);
  }

  lemma IndexedItemsStep(es: seq<(Key, Value)>, space: nat, inline: bool, k: nat)
    requires IsIndexed(es) && 1 <= k <= |es|
    ensures IndexedItems(es, space, inline, k)
         == IndexedItems(es, space, inline, k - 1)
            + ((if k == 1 then "" else Separator(inline))
               + Rendered(es, Padding(space, inline), space + 4)[k - 1])
  {
    IndexedItemAt(es, space, inline, k);
  }

  /** In a list the first element gets no separator and every later one gets it. */
  lemma {:induction false} IndexedItemsJoin(es: seq<(Key, Value)>, space: nat, inline: bool, k: nat)
    requires IsIndexed(es) && 1 <= k <= |es|
    ensures IndexedItems(es, space, inline, k)
         == Join(Separator(inline), Rendered(es, Padding(space, inline), space + 4)[..k])
  {
    var sep := Separator(inline);
    var items := Rendered(es, Padding(space, inline), space + 4);
    IndexedItemsStep(es, space, inline, k);
    if k == 1 {
      JoinOne(sep, items);
    } else {
      IndexedItemsJoin(es, space, inline, k - 1);
      JoinPrefix(sep, items, k - 1);
      AppendAssoc(IndexedItems(es, space, inline, k - 1), sep, items[k - 1]);
    }
  }

  lemma {:induction false} AssocPairsJoin(es: seq<(Key, Value)>, space: nat, k: nat)
    requires 1 <= k <= |es|
    ensures AssocPairs(es, space, k) == "\n" + Join("\n", PairLines(es, space)[..k])
  {
    var lines := PairLines(es, space);
    if k == 1 {
      JoinOne("\n", lines);
    } else {
      AssocPairsJoin(es, space, k - 1);
      JoinPrefix("\n", lines, k - 1);
      JoinExtend(AssocPairs(es, space, k - 1), Join("\n", lines[..k - 1]), lines[k - 1],
                 AssocPairs(es, space, k), Join("\n", lines[..k]));
    }
  }

  /**
   * A list of booleans, numbers and strings is written on one line: the
   * elements joined by a bare comma between brackets.
   */
  lemma InlineLayout(es: seq<(Key, Value)>, space: nat)
    requires |es| > 0 && IsIndexed(es) && AllInlinable(es)
    ensures Literal(Arr(es), space) == "[" + Join(",", Rendered(es, "", space + 4)) + "]"
  {
    IndexedItemsJoin(es, space, true, |es|);
    var items := Rendered(es, "", space + 4);
    assert items[..|es|] == items;
    assert Literal(Arr(es), space) == IndexedLiteral(es, space);
    assert IndexedLiteral(es, space) == "[" + IndexedItems(es, space, true, |es|) + "]";
  }

  /**
   * A list holding a null, an array or an unsupported value is written one
   * element per line at `space + 4`, with `,` and a newline between
   * elements, and the closing bracket on its own line at `space`.
   */
  lemma MultiLineLayout(es: seq<(Key, Value)>, space: nat)
    requires |es| > 0 && IsIndexed(es) && !AllInlinable(es)
    ensures Literal(Arr(es), space)
         == "[\n" + Join(",\n", Rendered(es, Spaces(space + 4), space + 4)) + "\n" + Spaces(space) + "]"
  {
    IndexedItemsJoin(es, space, false, |es|);
    var items := Rendered(es, Spaces(space + 4), space + 4);
    assert items[..|es|] == items;
    assert Literal(Arr(es), space) == IndexedLiteral(es, space);
    assert IndexedLiteral(es, space)
        == "[\n" + IndexedItems(es, space, false, |es|) + ("\n" + Spaces(space) + "]");
  }

  /**
   * Any other non-empty array is written one pair per line, the lines joined
   * by a bare newline (no comma), with the closing bracket on its own line
   * at `space`.
   */
  lemma AssocLayout(es: seq<(Key, Value)>, space: nat)
    requires |es| > 0 && !IsIndexed(es)
    ensures Literal(Arr(es), space)
         == "[\n" + Join("\n", PairLines(es, space)) + "\n" + Spaces(space) + "]"
  {
    AssocPairsJoin(es, space, |es|);
    var lines := PairLines(es, space);
    assert lines[..|es|] == lines;
    assert Literal(Arr(es), space) == AssocLiteral(es, space);
    Bracketed(AssocPairs(es, space, |es|), Join("\n", lines), Spaces(space));
  }

  /** A bracket before text that starts with a newline. */
  lemma Bracketed(pairs: string, joined: string, s: string)
    requires pairs == "\n" + joined
    ensures "[" + pairs + "\n" + s + "]" == "[\n" + joined + "\n" + s + "]"
  {
    assert "[" + pairs == "[\n" + joined;
  }

  /**
   * Values that are not arrays do not depend on the indentation: a string
   * is quoted without escaping, an integer is written in decimal (with a
   * minus sign when negative), a float as PHP renders it, null, true and
   * false as keywords, and anything else as the placeholder. The empty
   * array is `[]`.
   */
  lemma {:induction false} LeafLiterals(v: Value, space: nat)
    ensures v.Str? ==> Literal(v, space) == "'" + v.s + "'"
    ensures v.Int? && v.i >= 0 ==>
              IsDecimalKey(Literal(v, space)) && DecimalValue(Literal(v, space)) == v.i
    ensures v.Int? && v.i < 0 ==>
              var r := Literal(v, space);
              r[0] == '-' && IsDecimalKey(r[1..]) && DecimalValue(r[1..]) == -v.i
    ensures v.Float? ==> Literal(v, space) == v.text
    ensures v.Null? ==> Literal(v, space) == "null"
    ensures v.Bool? ==> Literal(v, space) == (if v.b then "true" else "false")
    ensures v == Arr([]) ==> Literal(v, space) == "[]"
    ensures v.Other? ==> Literal(v, space) == Unknown
    ensures !v.Arr? ==> Literal(v, space) == Literal(v, 0)
  {
    if v.Int? {
      if v.i >= 0 {
        NatToTextRoundTrip(v.i);
      } else {
        NatToTextRoundTrip(-v.i);
        assert Literal(v, space)[1..] == NatToText(-v.i);
      }
    }
  }

  /** `toSource(['a', 'b'])` is `['a','b']`. */
  lemma InlineExample()
    ensures Literal(Arr(ListAB), 0) == "['a','b']"
  {
    assert IsIndexed(ListAB) && AllInlinable(ListAB);
    InlineLayout(ListAB, 0);
    ListABRendered();
    JoinTwo(",", "'a'", "'b'");
  }

  /** `['a', 'b']` */
  const ListAB := [(IntKey(0), Str("a")), (IntKey(1), Str("b"))]

  lemma ListABRendered()
    ensures Rendered(ListAB, "", 4) == ["'a'", "'b'"]
  {
    assert |ListAB| == 2 && ListAB[0].1 == Str("a") && ListAB[1].1 == Str("b");
    assert Rendered(ListAB, "", 4)[0] == "" + "'a'";
    assert Rendered(ListAB, "", 4)[1] == "" + "'b'";
    assert "" + "'a'" == "'a'" && "" + "'b'" == "'b'";
  }

  /** `['a']` */
  const ListA := [(IntKey(0), Str("a"))]

  lemma ListAInline(space: nat)
    ensures Literal(Arr(ListA), space) == "['a']"
  {
    assert IsIndexed(ListA) && AllInlinable(ListA);
    InlineLayout(ListA, space);
    assert Literal(Str("a"), space + 4) == "'a'";
    assert |ListA| == 1 && ListA[0].1 == Str("a");
    assert Rendered(ListA, "", space + 4)[0] == "" + "'a'";
    assert "" + "'a'" == "'a'";
    assert Rendered(ListA, "", space + 4) == ["'a'"];
  }

  /** `toSource([['a']])` puts the inner list, inline, on a line of its own. */
  lemma NestedExample()
    ensures Literal(Arr([(IntKey(0), Arr(ListA))]), 0) == "[\n" + "    ['a']" + "\n" + "]"
  {
    var es := [(IntKey(0), Arr(ListA))];
    assert IsIndexed(es) && !Inlinable(es[0].1);
    ListAInline(4);
    assert Spaces(4) == "    ";
    assert Rendered(es, Spaces(4), 4)[0] == "    " + "['a']";
    assert "    " + "['a']" == "    ['a']";
    assert Rendered(es, Spaces(4), 4) == ["    ['a']"];
    MultiLineLayout(es, 0);
    assert Spaces(0) == "";
  }

  /** `['x' => 1, 'y' => null]` */
  const PairsXY := [(StrKey("x"), Int(1)), (StrKey("y"), Null)]

  lemma PairsXYLines()
    ensures !IsIndexed(PairsXY)
    ensures PairLines(PairsXY, 4) == ["        'x' => 1", "        'y' => null"]
  {
    assert KeysOf(PairsXY)[0] != IndexKeys(2)[0];
    var lines := PairLines(PairsXY, 4);
    assert Spaces(8) == "        ";
    assert Literal(Int(1), 8) == "1";
    assert lines[0] == "        'x' => 1";
    assert lines[1] == "        'y' => null";
  }

  /** `toSource(['x' => 1, 'y' => null], 4)`: pairs at 8 spaces, no comma between them. */
  lemma AssocExample()
    ensures Literal(Arr(PairsXY), 4)
         == "[\n" + ("        'x' => 1" + "\n" + "        'y' => null") + "\n" + "    " + "]"
  {
    PairsXYLines();
    JoinTwo("\n", "        'x' => 1", "        'y' => null");
    AssocLayout(PairsXY, 4);
    assert Spaces(4) == "    ";
  }

  /** `[1 => 'b', 0 => 'a']` */
  const PairsReordered := [(IntKey(1), Str("b")), (IntKey(0), Str("a"))]

  lemma PairsReorderedLines()
    ensures !IsIndexed(PairsReordered)
    ensures PairLines(PairsReordered, 0) == ["1 => 'b'", "0 => 'a'"]
  {
    assert KeysOf(PairsReordered)[0] != IndexKeys(2)[0];
    var lines := PairLines(PairsReordered, 0);
    assert Literal(Int(1), 0) == "1";
    assert Literal(Int(0), 0) == "0";
    assert lines[0] == "1 => 'b'";
    assert lines[1] == "0 => 'a'";
  }

  /** Integer keys out of order make the array associative, with no indentation at level 0. */
  lemma ReorderedKeysExample()
    ensures Literal(Arr(PairsReordered), 0) == "[\n" + ("1 => 'b'" + "\n" + "0 => 'a'") + "\n" + "" + "]"
  {
    PairsReorderedLines();
    JoinTwo("\n", "1 => 'b'", "0 => 'a'");
    AssocLayout(PairsReordered, 0);
    assert Spaces(0) == "";
  }
}
