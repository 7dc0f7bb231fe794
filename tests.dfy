/**
 * Clients of the document, the builders and the serialiser that redo the
 * source's unit tests from the contracts alone.
 */
module CfuaTests {
  import opened Wrappers
  import opened Strings
  import opened Decimal
  import opened CfuaData
  import opened CfuaArray
  import opened CfuaWrite

  /** Two writes leave exactly those two pairs, in the order written. */
  method BasicStructure() returns (pairs: seq<Pair>)
    ensures pairs == [("is-cfua", Bool(true)), ("purpose", String("Testing builder functions"))]
  {
    var data := new Cfua.Create();
    data.WriteBool("is-cfua", true);
    data.WriteString("purpose", "Testing builder functions");
    assert data.GetAll() == [("is-cfua", Bool(true)), ("purpose", String("Testing builder functions"))];
    assert data.ReadBool("is-cfua") == Some(true);
    assert data.ReadString("purpose") == Some("Testing builder functions");
    assert data.ReadString("is-cfua") == None;
    pairs := data.GetAll();
  }

  /** A later pair under the same key is never seen: the first match decides. */
  method FirstMatchDecides()
  {
    var data := new Cfua.Create();
    data.WriteSection("server");
    data.WriteInteger("server", 8080);
    assert IsFirstMatch(data.data, "server", 0);
    assert data.ReadInteger("server") == None;
  }

  /** A pair holding a string without newlines renders as `key: '` and the string. */
  lemma StringLine(key: string, s: string, floatText: F -> string)
    requires '\n' !in s
    ensures PairLine((key, String(s)), floatText) == key + ": " + ("'" + s) + "\n"
  {
    ReplaceWithoutNewline(s, "\n'");
  }

  /**
   * Three scalar pairs render as three lines, in the order written. The
   * document is a parameter pinned by `requires` so that its literal is not
   * unrolled through `DocumentText`.
   */
  lemma BasicLines(d: seq<Pair>, minus: F, floatText: F -> string, s: string)
    requires floatText(minus) == "-0.123" && s == "Testing to_string() method"
    requires d == [("number-value", Integer(1)), ("string-value", String(s)), ("another-number", Float(minus))]
    ensures Serializable(d)
    ensures DocumentText(d, floatText)
         == "number-value: 1\n" + ("string-value" + ": " + ("'" + s) + "\n") + "another-number: -0.123\n"
  {
    ThreeLines(d[0], d[1], d[2], floatText);
    NumberLine(floatText);
    StringLine("string-value", s, floatText);
    FloatLine(minus, floatText);
  }

  lemma NumberLine(floatText: F -> string)
    ensures PairLine(("number-value", Integer(1)), floatText) == "number-value: 1\n"
  {
    assert IntText(1) == "1";
  }

  lemma FloatLine(minus: F, floatText: F -> string)
    requires floatText(minus) == "-0.123"
    ensures PairLine(("another-number", Float(minus)), floatText) == "another-number: -0.123\n"
  {
    assert ValueText(Float(minus), floatText) == "-0.123";
  }

  /** Scalars render as `key: value` lines. */
  method ToStringBasic(minus: F, floatText: F -> string) returns (text: string)
    requires floatText(minus) == "-0.123"
    ensures text == "number-value: 1\n"
                  + ("string-value" + ": " + ("'" + "Testing to_string() method") + "\n")
                  + "another-number: -0.123\n"
  {
    var structure := new Cfua.Create();
    structure.WriteInteger("number-value", 1);
    structure.WriteString("string-value", "Testing to_string() method");
    structure.WriteFloat("another-number", minus);
    var s := "Testing to_string() method";
    assert structure.data == [("number-value", Integer(1)), ("string-value", String(s)), ("another-number", Float(minus))];
    BasicLines(structure.data, minus, floatText, s);
    text := ToString(structure, floatText);
  }

  /**
   * A two-line string element, as `multi` and `line`: each line behind a
   * `'`, the element behind a `#`, the item ending its line.
   */
  lemma TwoLineItem(a: string, b: string)
    requires '\n' !in a && '\n' !in b
    ensures HashItem(a + "\n" + b) == "#'" + a + "\n'" + b + "\n"
  {
    var q := Replace(a + "\n" + b, "\n'");
    assert q == a + "\n'" + b by {
      ReplaceWithoutNewline(a, "\n'");
      ReplaceWithoutNewline(b, "\n'");
      ReplaceAppend(a, "\n", "\n'");
      ReplaceAppend(a + "\n", b, "\n'");
      assert Replace("\n", "\n'") == "\n'";
    }
    assert "#" + "'" + q == "#'" + a + "\n'" + b by {
      Associative("#", "'", q);
      assert "#" + "'" == "#'";
      Associative("#'", a + "\n'", b);
      Associative("#'", a, "\n'");
    }
    Associative("#", "'", q);
  }

  /** The element texts of three integers, joined by `, `. */
  lemma JoinThree(x: string, y: string, z: string)
    ensures Join([x, y, z], ", ") == x + ", " + y + ", " + z
  {
    var texts := [x, y, z];
    assert texts[..2] == [x, y] && texts[..2][..1] == [x];
    assert Join([x, y], ", ") == x + ", " + y;
  }

  /** Three integers render in comma form, as the start of `fibonacci` does. */
  lemma CommaThree(x: Int64, y: Int64, z: Int64, floatText: F -> string)
    ensures ArrayText([Integer(x), Integer(y), Integer(z)], floatText)
         == "[" + (IntText(x) + ", " + IntText(y) + ", " + IntText(z)) + "]"
  {
    var es := [Integer(x), Integer(y), Integer(z)];
    CommaForm(es, floatText);
    assert ScalarTexts(es, floatText) == [IntText(x), IntText(y), IntText(z)];
    JoinThree(IntText(x), IntText(y), IntText(z));
  }

  /** An integer builder, pushed three times, renders its values in order. */
  method IntegerBuilder(floatText: F -> string)
  {
    var b := new IntegerArray.New();
    var chained := b.Push(1);
    chained := chained.Push(2);
    chained := chained.Push(3);
    assert b.elements == [Integer(1), Integer(2), Integer(3)];
    CommaThree(1, 2, 3, floatText);
    assert IntText(1) == "1" && IntText(2) == "2" && IntText(3) == "3";
    assert ValueText(b.Finish(), floatText) == "[" + ("1" + ", " + "2" + ", " + "3") + "]";
  }

  /** A string element without newlines is one `#'` item line. */
  lemma PlainItem(s: string)
    requires '\n' !in s
    ensures HashItem(s) == "#'" + s + "\n"
  {
    ReplaceWithoutNewline(s, "\n'");
    Associative("#", "'", s);
    assert "#" + "'" == "#'";
  }

  /** A document of three pairs renders as their three lines, in order. */
  lemma ThreeLines(p1: Pair, p2: Pair, p3: Pair, floatText: F -> string)
    requires PairSerializable(p1) && PairSerializable(p2) && PairSerializable(p3)
    ensures Serializable([p1, p2, p3])
    ensures DocumentText([p1, p2, p3], floatText)
         == PairLine(p1, floatText) + PairLine(p2, floatText) + PairLine(p3, floatText)
  {
    assert [p1, p2, p3][..2] == [p1, p2] && [p1, p2][..1] == [p1] && [p1][..0] == [];
    assert DocumentText([p1], floatText) == PairLine(p1, floatText) by {
      EmptyLeft(PairLine(p1, floatText));
    }
    assert DocumentText([p1, p2], floatText) == PairLine(p1, floatText) + PairLine(p2, floatText);
  }

  function Fibonacci(): seq<CfuaType>
  {
    [Integer(1), Integer(1), Integer(2), Integer(3), Integer(5), Integer(8), Integer(13), Integer(21), Integer(34), Integer(55)]
  }

  function FibonacciTexts(): seq<string>
  {
    ["1", "1", "2", "3", "5", "8", "13", "21", "34", "55"]
  }

  /** The `fibonacci` numbers render as their decimal texts, joined by `, ` between brackets. */
  lemma FibonacciArray(floatText: F -> string)
    ensures ValueText(Array(Fibonacci()), floatText) == "[" + Join(FibonacciTexts(), ", ") + "]"
  {
    CommaForm(Fibonacci(), floatText);
    FibonacciScalarTexts(floatText);
  }

  lemma FibonacciScalarTexts(floatText: F -> string)
    ensures ScalarTexts(Fibonacci(), floatText) == FibonacciTexts()
  {
    var t, es, u := ScalarTexts(Fibonacci(), floatText), Fibonacci(), FibonacciTexts();
    forall k | 0 <= k < 10 ensures t[k] == u[k] {
      assert t[k] == IntText(es[k].intValue);
      if k < 6 {
        assert es[k].intValue < 10;
      } else {
        TwoDigits(es[k].intValue);
      }
    }
  }

  lemma TwoDigits(n: nat)
    requires n == 13 || n == 21 || n == 34 || n == 55
    ensures IntText(n) == [DigitChar(n / 10), DigitChar(n % 10)]
  {
  }

  /** Three strings render as three item lines. */
  lemma HashItemsThree(a: string, b: string, c: string)
    ensures HashItems([String(a), String(b), String(c)]) == HashItem(a) + HashItem(b) + HashItem(c)
  {
    var es := [String(a), String(b), String(c)];
    assert es[..2] == [String(a), String(b)];
    HashItemsTwo(a, b);
  }

  /** Two strings render as two item lines. */
  lemma HashItemsTwo(a: string, b: string)
    ensures HashItems([String(a), String(b)]) == HashItem(a) + HashItem(b)
  {
    var es := [String(a), String(b)];
    assert es[..1] == [String(a)] && es[..1][..0] == [];
    assert HashItems(es[..1]) == HashItem(a) by {
      EmptyLeft(HashItem(a));
    }
  }

  /** The text of `fruits`: one `#'` line per fruit between `[` and `]` lines. */
  function FruitsText(): string
  {
    "[\n" + (("#'" + "Apple" + "\n") + ("#'" + "Banana" + "\n") + ("#'" + "Lemon" + "\n")) + "]"
  }

  /** The text of `split-array`: the second line of `multi\nline` carries `'` but no `#`. */
  function SplitArrayText(): string
  {
    "[\n" + (("#'" + "multi" + "\n'" + "line" + "\n") + ("#'" + "single line" + "\n")) + "]"
  }

  lemma FruitsArray(floatText: F -> string)
    ensures ValueText(Array([String("Apple"), String("Banana"), String("Lemon")]), floatText) == FruitsText()
  {
    var es := [String("Apple"), String("Banana"), String("Lemon")];
    HashForm(es, floatText);
    assert HashItems(es) == ("#'" + "Apple" + "\n") + ("#'" + "Banana" + "\n") + ("#'" + "Lemon" + "\n") by {
      HashItemsThree("Apple", "Banana", "Lemon");
      PlainItem("Apple");
      PlainItem("Banana");
      PlainItem("Lemon");
    }
  }

  lemma SplitArray(floatText: F -> string)
    ensures ValueText(Array([String("multi\nline"), String("single line")]), floatText) == SplitArrayText()
  {
    HashForm([String("multi\nline"), String("single line")], floatText);
    HashItemsTwo("multi\nline", "single line");
    assert "multi\nline" == "multi" + "\n" + "line";
    TwoLineItem("multi", "line");
    PlainItem("single line");
  }

  /**
   * The three arrays of the arrays test render as its three blocks, in order.
   * As in `BasicLines`, the document is a pinned parameter so that its
   * literal is not unrolled.
   */
  lemma ArraysDocument(d: seq<Pair>, floatText: F -> string)
    requires d == [("fibonacci", Array(Fibonacci())),
                   ("fruits", Array([String("Apple"), String("Banana"), String("Lemon")])),
                   ("split-array", Array([String("multi\nline"), String("single line")]))]
    ensures Serializable(d)
    ensures DocumentText(d, floatText)
         == "fibonacci" + ": " + ("[" + Join(FibonacciTexts(), ", ") + "]") + "\n"
          + ("fruits" + ": " + FruitsText() + "\n")
          + ("split-array" + ": " + SplitArrayText() + "\n")
  {
    ThreeLines(d[0], d[1], d[2], floatText);
    FibonacciArray(floatText);
    FruitsArray(floatText);
    SplitArray(floatText);
  }

  /** The `fibonacci` array, pushed one number at a time. */
  method BuildFibonacci() returns (v: CfuaType)
    ensures v == Array(Fibonacci())
  {
    var fibonacci := new IntegerArray.New();
    var b := fibonacci.Push(1);
    b := b.Push(1);
    b := b.Push(2);
    b := b.Push(3);
    b := b.Push(5);
    b := b.Push(8);
    b := b.Push(13);
    b := b.Push(21);
    b := b.Push(34);
    b := b.Push(55);
    v := fibonacci.Finish();
  }

  method BuildFruits() returns (v: CfuaType)
    ensures v == Array([String("Apple"), String("Banana"), String("Lemon")])
  {
    var fruits := new StringArray.New();
    var b := fruits.Push("Apple");
    b := b.Push("Banana");
    b := b.Push("Lemon");
    v := fruits.Finish();
  }

  method BuildSplitArray() returns (v: CfuaType)
    ensures v == Array([String("multi\nline"), String("single line")])
  {
    var split := new StringArray.New();
    var b := split.Push("multi\nline");
    b := b.Push("single line");
    v := split.Finish();
  }

  /** Arrays built with the builders render in comma form and in hash form. */
  method ToStringArrays(floatText: F -> string) returns (text: string)
    ensures text == "fibonacci" + ": " + ("[" + Join(FibonacciTexts(), ", ") + "]") + "\n"
                  + ("fruits" + ": " + FruitsText() + "\n")
                  + ("split-array" + ": " + SplitArrayText() + "\n")
  {
    var structure := new Cfua.Create();
    var fibonacci := BuildFibonacci();
    structure.WriteArray("fibonacci", fibonacci);
    var fruits := BuildFruits();
    structure.WriteArray("fruits", fruits);
    var split := BuildSplitArray();
    structure.WriteArray("split-array", split);
    ArraysDocument(structure.data, floatText);
    text := ToString(structure, floatText);
  }
}
