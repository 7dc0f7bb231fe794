/**
 * The serialiser: `Cfua`'s `to_string`. Each pair becomes one line (or a
 * block of lines), in document order, each ending in a newline. The text of
 * a float is whatever the formatter `floatText` gives; it is not modelled.
 */
module CfuaWrite {
  import opened CfuaData
  import opened Strings
  import opened Decimal
  import CfuaArray

  /**
   * The array elements the serialiser can render: an element that is itself
   * an array or a section reaches `unreachable!()`.
   */
  predicate ScalarElements(es: seq<CfuaType>)
  {
    forall k :: 0 <= k < |es| ==> IsScalar(es[k])
  }

  predicate PairSerializable(p: Pair)
  {
    p.1.Array? ==> ScalarElements(p.1.elements)
  }

  predicate Serializable(pairs: seq<Pair>)
  {
    forall k :: 0 <= k < |pairs| ==> PairSerializable(pairs[k])
  }

  function BoolText(b: bool): string
  {
    if b then "true" else "false"
  }

  /** The text the fragment loop has produced after its first `n` rounds. */
  function FragmentsText(frags: seq<string>, n: nat): string
    requires n <= |frags|
  {
    if n == 0 then ""
    else
      var line := FragmentsText(frags, n - 1) + "'" + frags[n - 1];
      if n != |frags| then line + "\n" else line
  }

  /**
   * A string value: `'` and then the string with a `'` after every newline.
   * `QuotedFragments` shows this is each line behind a `'`, the lines joined
   * by newlines, which is how `AppendQuoted` builds it.
   */
  function Quoted(s: string): string
  {
    "'" + Replace(s, "\n'")
  }

  /** A string element of a hash-form array: `#`, the quoted string, a newline. */
  function HashItem(s: string): string
  {
    "#" + Quoted(s) + "\n"
  }

  /** Integers, floats and booleans. */
  function ScalarText(v: CfuaType, floatText: F -> string): string
    requires v.Integer? || v.Float? || v.Bool?
  {
    match v
    case Integer(x) => IntText(x)
    case Float(x) => floatText(x)
    case Bool(x) => BoolText(x)
  }

  /** The text the element loop produces for element `i` of `es`. */
  function ElementText(es: seq<CfuaType>, i: nat, floatText: F -> string): string
    requires i < |es| && IsScalar(es[i])
  {
    if es[i].String? then
      if i == 0 then "\n" + HashItem(es[i].stringValue) else HashItem(es[i].stringValue)
    else if i + 1 != |es| then
      ScalarText(es[i], floatText) + ", "
    else
      ScalarText(es[i], floatText)
  }

  function ElementsText(es: seq<CfuaType>, n: nat, floatText: F -> string): string
    requires n <= |es| && ScalarElements(es)
  {
    if n == 0 then "" else ElementsText(es, n - 1, floatText) + ElementText(es, n - 1, floatText)
  }

  function ArrayText(es: seq<CfuaType>, floatText: F -> string): string
    requires ScalarElements(es)
  {
    "[" + ElementsText(es, |es|, floatText) + "]"
  }

  function ValueText(v: CfuaType, floatText: F -> string): string
    requires !v.Section? && PairSerializable(("", v))
  {
    match v
    case String(s) => Quoted(s)
    case Array(es) => ArrayText(es, floatText)
    case Integer(_) => ScalarText(v, floatText)
    case Float(_) => ScalarText(v, floatText)
    case Bool(_) => ScalarText(v, floatText)
    case Section => ""
  }

  /** A section renders as `@name`, every other pair as `key: value`; both end the line. */
  function PairLine(p: Pair, floatText: F -> string): string
    requires PairSerializable(p)
  {
    (if p.1.Section? then "@" + p.0 else p.0 + ": " + ValueText(p.1, floatText)) + "\n"
  }

  function DocumentText(pairs: seq<Pair>, floatText: F -> string): string
    requires Serializable(pairs)
  {
    if |pairs| == 0 then ""
    else DocumentText(pairs[..|pairs| - 1], floatText) + PairLine(pairs[|pairs| - 1], floatText)
  }

  /**
   * After `n` rounds the fragment loop has written the first `n` fragments,
   * each behind a `'`, separated by newlines, plus a newline when more follow.
   */
  lemma {:induction false} FragmentsJoined(frags: seq<string>, n: nat)
    requires 1 <= n <= |frags|
    ensures FragmentsText(frags, n) == "'" + Join(frags[..n], "\n'") + (if n != |frags| then "\n" else "")
  {
    if n > 1 {
      FragmentsJoined(frags, n - 1);
      assert frags[..n][..n - 1] == frags[..n - 1];
    }
  }

  /** A string renders as its split fragments, each behind a `'`, joined by newlines. */
  lemma QuotedFragments(s: string)
    ensures Quoted(s) == FragmentsText(Split(s), |Split(s)|)
    ensures Quoted(s) == "'" + Join(Split(s), "\n'")
  {
    var frags := Split(s);
    FragmentsJoined(frags, |frags|);
    assert frags[..|frags|] == frags;
    JoinSplit(s, "\n'");
  }

  /** Removes the `'` after every newline: undoes `Replace(_, "\n'")`. */
  function Unescape(t: string): string
  {
    if |t| == 0 then ""
    else if |t| >= 2 && t[|t| - 2] == '\n' && t[|t| - 1] == '\'' then Unescape(t[..|t| - 2]) + "\n"
    else Unescape(t[..|t| - 1]) + [t[|t| - 1]]
  }

  /** Strips the quotes the serialiser inserted into a string value. */
  function Unquote(t: string): string
  {
    if |t| == 0 then "" else Unescape(t[1..])
  }

  /** Unescaping undoes one inserted `'`: the text before it ends in no newline or with it. */
  lemma UnescapeQuoteAfterNewline(t: string)
    ensures Unescape(t + "\n'") == Unescape(t) + "\n"
  {
    var u := t + "\n'";
    assert u[|u| - 2] == '\n' && u[|u| - 1] == '\'';
    assert u[..|u| - 2] == t;
  }

  lemma UnescapeOther(t: string, c: char)
    requires c == '\'' ==> |t| == 0 || t[|t| - 1] != '\n'
    ensures Unescape(t + [c]) == Unescape(t) + [c]
  {
    var u := t + [c];
    assert u[|u| - 1] == c;
    assert |u| >= 2 ==> u[|u| - 2] == t[|t| - 1];
    assert u[..|u| - 1] == t;
  }

  /** Replacing newlines by `\n'` leaves no newline at the end. */
  lemma ReplaceEndsWithoutNewline(s: string)
    requires |s| > 0
    ensures var r := Replace(s, "\n'"); |r| > 0 && r[|r| - 1] != '\n'
  {
    var tail := if s[|s| - 1] == '\n' then "\n'" else [s[|s| - 1]];
    var r := Replace(s, "\n'");
    assert r == Replace(s[..|s| - 1], "\n'") + tail;
    assert r[|r| - 1] == tail[|tail| - 1];
  }

  lemma ReplaceLast(p: string, c: char)
    ensures Replace(p + [c], "\n'") == Replace(p, "\n'") + (if c == '\n' then "\n'" else [c])
  {
    var s := p + [c];
    assert s[..|s| - 1] == p && s[|s| - 1] == c;
  }

  /** Unescaping the replaced text of one more character gives that character back. */
  lemma UnescapeReplaceStep(p: string, c: char)
    requires Unescape(Replace(p, "\n'")) == p
    ensures Unescape(Replace(p + [c], "\n'")) == p + [c]
  {
    var rp := Replace(p, "\n'");
    ReplaceLast(p, c);
    if c == '\n' {
      UnescapeQuoteAfterNewline(rp);
    } else {
      if |p| > 0 {
        ReplaceEndsWithoutNewline(p);
      }
      UnescapeOther(rp, c);
    }
  }

  lemma {:induction false} UnescapeReplace(s: string)
    ensures Unescape(Replace(s, "\n'")) == s
  {
    if |s| > 0 {
      var p, c := s[..|s| - 1], s[|s| - 1];
      UnescapeReplace(p);
      UnescapeReplaceStep(p, c);
      assert s == p + [c];
    }
  }

  /** Removing the inserted quotes from a rendered string gives the string back. */
  lemma UnquoteQuoted(s: string)
    ensures Unquote(Quoted(s)) == s
  {
    assert ("'" + Replace(s, "\n'"))[1..] == Replace(s, "\n'");
    UnescapeReplace(s);
  }

  predicate NoStrings(es: seq<CfuaType>)
  {
    forall k :: 0 <= k < |es| ==> es[k].Integer? || es[k].Float? || es[k].Bool?
  }

  predicate AllStrings(es: seq<CfuaType>)
  {
    forall k :: 0 <= k < |es| ==> es[k].String?
  }

  /** The texts of integer, float and boolean elements, in order. */
  function ScalarTexts(es: seq<CfuaType>, floatText: F -> string): (r: seq<string>)
    requires NoStrings(es)
    ensures |r| == |es|
    ensures forall k :: 0 <= k < |es| ==> r[k] == ScalarText(es[k], floatText)
  {
    if |es| == 0 then []
    else ScalarTexts(es[..|es| - 1], floatText) + [ScalarText(es[|es| - 1], floatText)]
  }

  /** The hash-form lines of string elements, one after another. */
  function HashItems(es: seq<CfuaType>): string
    requires AllStrings(es)
  {
    if |es| == 0 then ""
    else HashItems(es[..|es| - 1]) + HashItem(es[|es| - 1].stringValue)
  }

  /** One more round of the element loop appends the text of one more element. */
  lemma ElementsTextStep(es: seq<CfuaType>, n: nat, floatText: F -> string)
    requires ScalarElements(es) && 0 < n <= |es|
    ensures ElementsText(es, n, floatText) == ElementsText(es, n - 1, floatText) + ElementText(es, n - 1, floatText)
  {
  }

  /** The comma-form text of the first `n` elements, with a trailing `, ` while more follow. */
  function CommaPrefixText(es: seq<CfuaType>, n: nat, floatText: F -> string): string
    requires NoStrings(es) && n <= |es|
  {
    var joined := Join(ScalarTexts(es[..n], floatText), ", ");
    if 0 < n < |es| then joined + ", " else joined
  }

  lemma CommaFirst(es: seq<CfuaType>, floatText: F -> string)
    requires NoStrings(es) && 0 < |es|
    ensures ScalarElements(es)
    ensures ElementsText(es, 1, floatText) == CommaPrefixText(es, 1, floatText)
  {
    ElementsTextStep(es, 1, floatText);
    EmptyLeft(ElementText(es, 0, floatText));
    assert ScalarTexts(es[..1], floatText) == [ScalarText(es[0], floatText)];
  }

  lemma CommaNext(es: seq<CfuaType>, n: nat, floatText: F -> string)
    requires NoStrings(es) && 1 < n <= |es|
    requires ElementsText(es, n - 1, floatText) == CommaPrefixText(es, n - 1, floatText)
    ensures ElementsText(es, n, floatText) == CommaPrefixText(es, n, floatText)
  {
    var i := n - 1;
    ElementsTextStep(es, n, floatText);
    var text := ScalarText(es[i], floatText);
    var all, init := ScalarTexts(es[..n], floatText), ScalarTexts(es[..i], floatText);
    assert all[..i] == init;
    assert Join(all, ", ") == Join(init, ", ") + ", " + text;
    if n != |es| {
      Associative(Join(init, ", ") + ", ", text, ", ");
    }
  }

  lemma {:induction false} CommaPrefix(es: seq<CfuaType>, n: nat, floatText: F -> string)
    requires NoStrings(es) && n <= |es|
    ensures ScalarElements(es)
    ensures ElementsText(es, n, floatText) == CommaPrefixText(es, n, floatText)
  {
    if n == 1 {
      CommaFirst(es, floatText);
    } else if n > 1 {
      CommaPrefix(es, n - 1, floatText);
      CommaNext(es, n, floatText);
    }
  }

  /**
   * An array without string elements renders on one line: `[`, the element
   * texts separated by `, `, then `]`; so an empty array renders as `[]`.
   */
  lemma CommaForm(es: seq<CfuaType>, floatText: F -> string)
    requires NoStrings(es)
    ensures ScalarElements(es)
    ensures ArrayText(es, floatText) == "[" + Join(ScalarTexts(es, floatText), ", ") + "]"
  {
    CommaPrefix(es, |es|, floatText);
    assert es[..|es|] == es;
    Associative("[", ElementsText(es, |es|, floatText), "]");
  }

  lemma HashFirst(es: seq<CfuaType>, floatText: F -> string)
    requires AllStrings(es) && 0 < |es|
    ensures ScalarElements(es)
    ensures ElementsText(es, 1, floatText) == "\n" + HashItems(es[..1])
  {
    ElementsTextStep(es, 1, floatText);
    var item := HashItem(es[0].stringValue);
    EmptyLeft("\n" + item);
    assert es[..1][..0] == [];
    EmptyLeft(item);
  }

  lemma HashNext(es: seq<CfuaType>, n: nat, floatText: F -> string)
    requires AllStrings(es) && 1 < n <= |es|
    requires ElementsText(es, n - 1, floatText) == "\n" + HashItems(es[..n - 1])
    ensures ElementsText(es, n, floatText) == "\n" + HashItems(es[..n])
  {
    var i := n - 1;
    var item := HashItem(es[i].stringValue);
    assert ElementText(es, i, floatText) == item;
    ElementsTextStep(es, n, floatText);
    assert es[..n][..i] == es[..i] && es[..n][i] == es[i];
    assert HashItems(es[..n]) == HashItems(es[..i]) + item;
    Associative("\n", HashItems(es[..i]), item);
  }

  lemma {:induction false} HashPrefix(es: seq<CfuaType>, n: nat, floatText: F -> string)
    requires AllStrings(es) && n <= |es|
    ensures ScalarElements(es)
    ensures ElementsText(es, n, floatText) == if n == 0 then "" else "\n" + HashItems(es[..n])
  {
    if n == 1 {
      HashFirst(es, floatText);
    } else if n > 1 {
      HashPrefix(es, n - 1, floatText);
      HashNext(es, n, floatText);
    }
  }

  /**
   * An array of strings renders as `[`, a newline, one `#`-prefixed quoted
   * element per line, then `]`; when there are no elements, as `[]`.
   */
  lemma HashForm(es: seq<CfuaType>, floatText: F -> string)
    requires AllStrings(es)
    ensures ScalarElements(es)
    ensures ArrayText(es, floatText) == if |es| == 0 then "[]" else "[\n" + HashItems(es) + "]"
  {
    HashPrefix(es, |es|, floatText);
    if |es| == 0 {
      EmptyRight("[");
    } else {
      assert es[..|es|] == es;
      OpenOnOwnLine(HashItems(es));
    }
  }

  lemma SerializableAppend(a: seq<Pair>, b: seq<Pair>)
    requires Serializable(a) && Serializable(b)
    ensures Serializable(a + b)
  {
    forall k | 0 <= k < |a + b| ensures PairSerializable((a + b)[k]) {
      if k < |a| { assert (a + b)[k] == a[k]; } else { assert (a + b)[k] == b[k - |a|]; }
    }
  }

  lemma SerializablePrefix(b: seq<Pair>, n: nat)
    requires Serializable(b) && n <= |b|
    ensures Serializable(b[..n])
  {
    forall k | 0 <= k < n ensures PairSerializable(b[..n][k]) { assert b[..n][k] == b[k]; }
  }

  /** A sequence fact Dafny knows unaided; stated apart to keep `DocumentAppend` cheap to verify. */
  lemma DropLastOfAppend(a: seq<Pair>, b: seq<Pair>)
    requires |b| > 0
    ensures (a + b)[..|a + b| - 1] == a + b[..|b| - 1] && (a + b)[|a + b| - 1] == b[|b| - 1]
  {
  }

  /** The text of a document is the texts of its parts, in order. */
  lemma {:induction false} DocumentAppend(a: seq<Pair>, b: seq<Pair>, floatText: F -> string)
    requires Serializable(a) && Serializable(b)
    ensures Serializable(a + b)
    ensures DocumentText(a + b, floatText) == DocumentText(a, floatText) + DocumentText(b, floatText)
  {
    SerializableAppend(a, b);
    if |b| == 0 {
      assert a + b == a;
      EmptyRight(DocumentText(a, floatText));
    } else {
      var init, last := b[..|b| - 1], b[|b| - 1];
      SerializablePrefix(b, |b| - 1);
      DocumentAppend(a, init, floatText);
      DropLastOfAppend(a, b);
      Associative(DocumentText(a, floatText), DocumentText(init, floatText), PairLine(last, floatText));
    }
  }

  /** A document renders as one rendered pair after another. */
  lemma DocumentLines(p: Pair, rest: seq<Pair>, floatText: F -> string)
    requires PairSerializable(p) && Serializable(rest)
    ensures Serializable([p] + rest)
    ensures DocumentText([p] + rest, floatText) == PairLine(p, floatText) + DocumentText(rest, floatText)
  {
    DocumentAppend([p], rest, floatText);
    assert DocumentText([p], floatText) == DocumentText([], floatText) + PairLine(p, floatText);
  }

  /** What an integer builder finishes with renders in comma form. */
  lemma IntegerArrayCommaForm(b: CfuaArray.IntegerArray, floatText: F -> string)
    requires b.Valid()
    ensures ScalarElements(b.elements)
    ensures ValueText(b.Finish(), floatText) == "[" + Join(ScalarTexts(b.elements, floatText), ", ") + "]"
  {
    CommaForm(b.elements, floatText);
  }

  /** What a string builder finishes with renders in hash form. */
  lemma StringArrayHashForm(b: CfuaArray.StringArray, floatText: F -> string)
    requires b.Valid()
    ensures ScalarElements(b.elements)
    ensures ValueText(b.Finish(), floatText)
         == if |b.elements| == 0 then "[]" else "[\n" + HashItems(b.elements) + "]"
  {
    HashForm(b.elements, floatText);
  }

  /** What the element loop has written, plus one more element. */
  lemma ElementsExtend(open: string, es: seq<CfuaType>, i: nat, floatText: F -> string)
    requires ScalarElements(es) && i < |es|
    ensures open + ElementsText(es, i, floatText) + ElementText(es, i, floatText)
         == open + ElementsText(es, i + 1, floatText)
  {
    ElementsTextStep(es, i + 1, floatText);
    Associative(open, ElementsText(es, i, floatText), ElementText(es, i, floatText));
  }

  /** The array text appended to `output`: the bracket, the element loop's text, the bracket. */
  lemma ArrayClose(output: string, es: seq<CfuaType>, floatText: F -> string)
    requires ScalarElements(es)
    ensures output + "[" + ElementsText(es, |es|, floatText) + "]" == output + ArrayText(es, floatText)
  {
    var body := ElementsText(es, |es|, floatText);
    Associative(output, "[", body);
    Associative(output, "[" + body, "]");
  }

  /** The opening bracket followed by a newline-led body. */
  lemma OpenOnOwnLine(items: string)
    ensures "[" + ("\n" + items) + "]" == "[\n" + items + "]"
  {
    assert "[" + "\n" == "[\n";
    Associative("[", "\n", items);
  }

  /**
   * `Associative`, `EmptyLeft` and `EmptyRight` are sequence facts Dafny knows
   * unaided; calling them names the one step a proof needs and keeps it cheap.
   */
  lemma Associative(a: string, b: string, c: string)
    ensures a + b + c == a + (b + c)
  {
  }

  lemma EmptyLeft(s: string)
    ensures "" + s == s
  {
  }

  lemma EmptyRight(s: string)
    ensures s + "" == s
  {
  }

  /** Appends the rendering of the string value `s`, one split fragment at a time. */
  method AppendQuoted(output: string, s: string) returns (r: string)
    ensures r == output + Quoted(s)
  {
    QuotedFragments(s);
    var split := Split(s);
    r := output;
    for j := 0 to |split|
      invariant r == output + FragmentsText(split, j)
    {
      r := r + "'" + split[j];
      if j + 1 != |split| {
        r := r + "\n";
      }
    }
  }

  /** Appends the rendering of element `i` of an array and what follows it. */
  method AppendElement(output: string, es: seq<CfuaType>, i: nat, floatText: F -> string) returns (r: string)
    requires i < |es| && IsScalar(es[i])
    ensures r == output + ElementText(es, i, floatText)
  {
    r := output;
    match es[i] {
      case Integer(el) => r := r + IntText(el);
      case Float(el) => r := r + floatText(el);
      case String(el) =>
        if i == 0 {
          r := r + "\n";
        }
        r := r + "#";
        r := AppendQuoted(r, el);
      case Bool(el) => r := r + BoolText(el);
    }
    if es[i].String? {
      r := r + "\n";
      ghost var q := es[i].stringValue;
      if i == 0 {
        assert r == output + "\n" + "#" + Quoted(q) + "\n";
        Associative(output + "\n", "#", Quoted(q));
        Associative(output + "\n", "#" + Quoted(q), "\n");
        Associative(output, "\n", HashItem(q));
      } else {
        assert r == output + "#" + Quoted(q) + "\n";
        Associative(output, "#", Quoted(q));
        Associative(output, "#" + Quoted(q), "\n");
      }
    } else if i + 1 != |es| {
      r := r + ", ";
      Associative(output, ScalarText(es[i], floatText), ", ");
    }
  }

  /** Appends the elements of an array, one round of the element loop each. */
  method AppendElements(output: string, es: seq<CfuaType>, floatText: F -> string) returns (r: string)
    requires ScalarElements(es)
    ensures r == output + ElementsText(es, |es|, floatText)
  {
    r := output;
    for i := 0 to |es|
      invariant r == output + ElementsText(es, i, floatText)
    {
      r := AppendElement(r, es, i, floatText);
      ElementsExtend(output, es, i, floatText);
    }
  }

  /** Appends the rendering of an array whose elements are `es`. */
  method AppendArray(output: string, es: seq<CfuaType>, floatText: F -> string) returns (r: string)
    requires ScalarElements(es)
    ensures r == output + ArrayText(es, floatText)
  {
    r := AppendElements(output + "[", es, floatText);
    ArrayClose(output, es, floatText);
    r := r + "]";
  }

  /** Appends the rendering of the value of a pair that is not a section. */
  method AppendValue(output: string, value: CfuaType, floatText: F -> string) returns (r: string)
    requires !value.Section? && PairSerializable(("", value))
    ensures r == output + ValueText(value, floatText)
  {
    match value {
      case Integer(x) => r := output + IntText(x);
      case Float(x) => r := output + floatText(x);
      case String(x) => r := AppendQuoted(output, x);
      case Bool(x) => r := output + BoolText(x);
      case Array(es) => r := AppendArray(output, es, floatText);
    }
  }

  /** The text of the whole document `doc`, built pair by pair. */
  method ToString(doc: Cfua, floatText: F -> string) returns (output: string)
    requires Serializable(doc.data)
    ensures output == DocumentText(doc.data, floatText)
  {
    output := "";
    var pairs := doc.GetAll();
    for n := 0 to |pairs|
      invariant output == DocumentText(pairs[..n], floatText)
    {
      ghost var before := output;
      assert pairs[..n + 1][..n] == pairs[..n];
      var key, value := pairs[n].0, pairs[n].1;
      assert PairSerializable(pairs[n]);
      if value.Section? {
        output := output + "@" + key;
        Associative(before, "@", key);
      } else {
        output := output + key + ": ";
        output := AppendValue(output, value, floatText);
        Associative(before, key, ": ");
        Associative(before, key + ": ", ValueText(value, floatText));
      }
      ghost var head := if value.Section? then "@" + key else key + ": " + ValueText(value, floatText);
      assert output == before + head;
      output := output + "\n";
      Associative(before, head, "\n");
    }
    assert pairs[..|pairs|] == pairs;
  }
}
