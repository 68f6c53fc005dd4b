/**
  * The indentation format written out: a dict of scalars, nested dicts and
  * non-empty lists of scalars becomes the lines `key: value`, `key:` with the
  * nested block two spaces deeper, and `key:` with one `- value` line per
  * item. The parser reads every such file back as the dict it came from.
  */
module YamlWriter {
  import opened Common
  import opened Text
  import opened Dicts
  import opened Values
  import opened Scalars
  import opened YamlParser

  // ---------------------------------------------------------------------
  // What can be written
  // ---------------------------------------------------------------------

  /**
    * A key the parser reads back as itself: not empty, no ':', no whitespace
    * at either end, and not the start of a comment or of a `- ` item.
    */
  predicate WritableKey(k: string)
  {
    && k != [] && !IsSpace(k[0]) && !IsSpace(k[|k| - 1])
    && ':' !in k && k[0] != '#' && !StartsWith(k, "- ")
  }

  /** Every item of a list has a textual form. */
  predicate RenderableItems(items: seq<Value>)
  {
    forall i :: 0 <= i < |items| ==> Renderable(items[i])
  }

  /**
    * A tree the format holds: distinct writable keys, and each value a
    * renderable scalar, a non-empty list of renderable scalars, or a tree.
    */
  predicate Serializable(d: Dict<Value>)
  {
    d == [] ||
    (&& WritableKey(d[0].0) && d[0].0 !in Keys(d[1..]) && Serializable(d[1..])
     && match d[0].1
        case Map(e) => assert d[0] in d && d[0].1 < d[0]; Serializable(e)
        case List(items) => items != [] && RenderableItems(items)
        case _ => Renderable(d[0].1))
  }

  // ---------------------------------------------------------------------
  // The writer
  // ---------------------------------------------------------------------

  /** The lines of `d` with its keys indented by `n`. */
  function Serialize(d: Dict<Value>, n: nat): seq<string>
    requires Serializable(d)
    decreases d, 2
  {
    if d == [] then [] else EntryLines(d, n) + Serialize(d[1..], n)
  }

  /** The line holding the first key of `d`: `key: value` for a scalar, `key:` for a container. */
  function HeadLine(d: Dict<Value>, n: nat): string
    requires d != [] && Serializable(d)
  {
    var k := d[0].0;
    if d[0].1.Map? || d[0].1.List? then Spaces(n) + k + ":" else Spaces(n) + k + ": " + Render(d[0].1)
  }

  /** The lines of the first entry of `d`. */
  function EntryLines(d: Dict<Value>, n: nat): seq<string>
    requires d != [] && Serializable(d)
    decreases d, 1
  {
    [HeadLine(d, n)] + BodyLines(d, n)
  }

  /** The lines under the first key of `d`: its nested block, its items, or none. */
  function BodyLines(d: Dict<Value>, n: nat): seq<string>
    requires d != [] && Serializable(d)
    decreases d, 0
  {
    match d[0].1
    case Map(e) => assert d[0] in d && d[0].1 < d[0]; Serialize(e, n + 2)
    case List(items) => ItemLines(items, n + 2)
    case _ => []
  }

  function ItemLines(items: seq<Value>, m: nat): (lines: seq<string>)
    requires RenderableItems(items)
    ensures |lines| == |items|
    ensures forall i :: 0 <= i < |items| ==> lines[i] == Spaces(m) + "- " + Render(items[i])
  {
    seq(|items|, i requires 0 <= i < |items| => Spaces(m) + "- " + Render(items[i]))
  }

  /** What the parser should see in each line of `Serialize(d, n)`. */
  function Kinds(d: Dict<Value>, n: nat): seq<LineKind>
    requires Serializable(d)
    decreases d, 2
  {
    if d == [] then [] else EntryKinds(d, n) + Kinds(d[1..], n)
  }

  function HeadKind(d: Dict<Value>, n: nat): LineKind
    requires d != []
  {
    var k := d[0].0;
    match d[0].1
    case Map(_) => Opener(n, k, false)
    case List(_) => Opener(n, k, true)
    case _ => Entry(n, k, d[0].1)
  }

  function EntryKinds(d: Dict<Value>, n: nat): seq<LineKind>
    requires d != [] && Serializable(d)
    decreases d, 1
  {
    [HeadKind(d, n)] + BodyKinds(d, n)
  }

  function BodyKinds(d: Dict<Value>, n: nat): seq<LineKind>
    requires d != [] && Serializable(d)
    decreases d, 0
  {
    match d[0].1
    case Map(e) => assert d[0] in d && d[0].1 < d[0]; Kinds(e, n + 2)
    case List(items) => ItemKinds(items, n + 2)
    case _ => []
  }

  function ItemKinds(items: seq<Value>, m: nat): (ks: seq<LineKind>)
    ensures |ks| == |items|
    ensures forall i :: 0 <= i < |items| ==> ks[i] == Item(m, items[i])
  {
    if items == [] then [] else [Item(m, items[0])] + ItemKinds(items[1..], m)
  }

  lemma {:induction false} WrittenLength(d: Dict<Value>, n: nat)
    requires Serializable(d)
    ensures |Kinds(d, n)| == |Serialize(d, n)|
    decreases d, 1
  {
    if d != [] {
      EntryLength(d, n);
      WrittenLength(d[1..], n);
    }
  }

  lemma {:induction false} EntryLength(d: Dict<Value>, n: nat)
    requires d != [] && Serializable(d)
    ensures |EntryKinds(d, n)| == |EntryLines(d, n)|
    decreases d, 0
  {
    match d[0].1
    case Map(e) => assert d[0] in d && d[0].1 < d[0]; WrittenLength(e, n + 2);
    case List(_) =>
    case _ =>
  }

  // ---------------------------------------------------------------------
  // How the parser reads each written line
  // ---------------------------------------------------------------------

  /** What `Serializable` says about the first entry and the rest. */
  lemma {:induction false} SerializableFirst(d: Dict<Value>)
    requires d != [] && Serializable(d)
    ensures WritableKey(d[0].0) && d[0].0 !in Keys(d[1..]) && Serializable(d[1..])
    ensures d[0].1.Map? ==> Serializable(d[0].1.entries)
    ensures d[0].1.List? ==> d[0].1.items != [] && RenderableItems(d[0].1.items)
    ensures !d[0].1.Map? && !d[0].1.List? ==> Renderable(d[0].1)
  {
  }

  /** A rendered scalar has no whitespace at either end. */
  lemma {:induction false} RenderEnds(v: Value)
    requires Renderable(v)
    ensures var t := Render(v); t != [] && !IsSpace(t[0]) && !IsSpace(t[|t| - 1])
  {
    match v
    case Str(s) =>
    case Bool(b) =>
    case Int(i) =>
    case Float(t) =>
      FloatTokenShape(t);
      FloatLeadChar(t[0]);
      FloatTailChar(t[|t| - 1]);
  }

  /** Spaces in front of a text with no whitespace at either end strip off and count as its indentation. */
  lemma {:induction false} PaddedText(n: nat, body: string)
    requires body != [] && !IsSpace(body[0]) && !IsSpace(body[|body| - 1])
    ensures Strip(Spaces(n) + body) == body && Indent(Spaces(n) + body) == n
  {
    var pad := Spaces(n);
    assert forall i :: 0 <= i < |pad| ==> IsSpace(pad[i]);
    assert pad + body + "" == pad + body;
    StripIgnoresPadding(pad, body, "");
    IndentOfSpaces(n, body);
  }

  /** A line `key:` or `key: value` with a writable key is significant, indented by `n`, and not an item. */
  lemma {:induction false} KeyLine(n: nat, k: string, tail: string)
    requires WritableKey(k)
    requires tail == [] || !IsSpace(tail[|tail| - 1])
    ensures var line := Spaces(n) + k + ":" + tail;
            && Strip(line) == k + ":" + tail
            && Indent(line) == n && !Skipped(line) && !IsItem(line)
            && HasColon(line) && KeyOf(line) == k && ValueOf(line) == Strip(tail)
  {
    var line := Spaces(n) + k + ":" + tail;
    var body := k + ":" + tail;
    assert line == Spaces(n) + body;
    assert body[0] == k[0];
    assert body[|body| - 1] == (if tail == [] then ':' else tail[|tail| - 1]);
    PaddedText(n, body);
    if |k| >= 2 {
      assert body[..2] == k[..2];
    } else {
      assert body[1] == ':';
    }
    KeyIsBeforeFirstColon(line, k, tail);
    StripUnchanged(k);
  }

  /**
    * The line of the first key of `d` is significant, indented by `n` and
    * not an item; it reads as `key: value` with its scalar, or as `key:`.
    */
  lemma {:induction false} HeadLineClassified(lines: seq<string>, j: nat, d: Dict<Value>, n: nat)
    requires d != [] && Serializable(d) && j < |lines| && lines[j] == HeadLine(d, n)
    ensures Indent(lines[j]) == n && !Skipped(lines[j]) && !IsItem(lines[j])
    ensures d[0].1.Map? || d[0].1.List? ==> Classify(lines, j) == Opener(n, d[0].0, PeekIsList(lines, j + 1, n))
    ensures !d[0].1.Map? && !d[0].1.List? ==> Classify(lines, j) == HeadKind(d, n)
  {
    SerializableFirst(d);
    if d[0].1.Map? || d[0].1.List? {
      OpenerLineClassified(lines, j, n, d[0].0);
    } else {
      EntryLineClassified(lines, j, n, d[0].0, d[0].1);
    }
  }

  /** A line `key:` reads as an opener whose kind the look-ahead decides. */
  lemma {:induction false} OpenerLineClassified(lines: seq<string>, j: nat, n: nat, k: string)
    requires WritableKey(k) && j < |lines| && lines[j] == Spaces(n) + k + ":"
    ensures Indent(lines[j]) == n && !Skipped(lines[j]) && !IsItem(lines[j])
    ensures Classify(lines, j) == Opener(n, k, PeekIsList(lines, j + 1, n))
  {
    assert lines[j] == Spaces(n) + k + ":" + "";
    KeyLine(n, k, "");
    assert Strip("") == [];
  }

  /** A line `key: value` with a renderable scalar reads as that entry. */
  lemma {:induction false} EntryLineClassified(lines: seq<string>, j: nat, n: nat, k: string, v: Value)
    requires WritableKey(k) && Renderable(v) && j < |lines| && lines[j] == Spaces(n) + k + ": " + Render(v)
    ensures Indent(lines[j]) == n && !Skipped(lines[j]) && !IsItem(lines[j])
    ensures Classify(lines, j) == Entry(n, k, v)
  {
    RenderEnds(v);
    EntryText(n, k, Render(v));
    ScalarRoundTrip(v);
  }

  /** A line `key: text` reads with that key and that text as its value. */
  lemma {:induction false} EntryText(n: nat, k: string, r: string)
    requires WritableKey(k) && r != [] && !IsSpace(r[0]) && !IsSpace(r[|r| - 1])
    ensures var line := Spaces(n) + k + ": " + r;
            && Indent(line) == n && !Skipped(line) && !IsItem(line)
            && HasColon(line) && KeyOf(line) == k && ValueOf(line) == r
  {
    assert Spaces(n) + k + ": " + r == Spaces(n) + k + ":" + (" " + r);
    SpacedText(r);
    KeyLine(n, k, " " + r);
  }

  /** The space after the colon strips off the value. */
  lemma {:induction false} SpacedText(r: string)
    requires r != [] && !IsSpace(r[0]) && !IsSpace(r[|r| - 1])
    ensures Strip(" " + r) == r && !IsSpace((" " + r)[|" " + r| - 1])
  {
    assert " " + r == " " + r + "";
    assert forall i :: 0 <= i < |" "| ==> IsSpace(" "[i]);
    StripIgnoresPadding(" ", r, "");
  }

  /** An item line `- value` indented by `m` is significant, an item, and indented by `m`. */
  lemma {:induction false} ItemLine(m: nat, x: Value)
    requires Renderable(x)
    ensures var line := Spaces(m) + "- " + Render(x);
            && Strip(line) == "- " + Render(x)
            && Indent(line) == m && !Skipped(line) && IsItem(line)
  {
    var r := Render(x);
    RenderEnds(x);
    ItemText(m, r);
  }

  lemma {:induction false} ItemText(m: nat, r: string)
    requires r != [] && !IsSpace(r[0]) && !IsSpace(r[|r| - 1])
    ensures var line := Spaces(m) + "- " + r;
            && Strip(line) == "- " + r
            && Indent(line) == m && !Skipped(line) && IsItem(line)
  {
    var body := "- " + r;
    assert Spaces(m) + "- " + r == Spaces(m) + body;
    assert body[0] == '-' && body[|body| - 1] == r[|r| - 1];
    PaddedText(m, body);
    assert body[..2] == "- ";
  }

  lemma {:induction false} ItemLineClassified(lines: seq<string>, j: nat, m: nat, x: Value)
    requires j < |lines| && Renderable(x)
    requires lines[j] == Spaces(m) + "- " + Render(x)
    ensures Classify(lines, j) == Item(m, x)
  {
    ItemLine(m, x);
    assert Strip(lines[j])[2..] == Render(x);
    ScalarRoundTrip(x);
  }

  /** The first written line of a non-empty tree is its first key, indented by `n`. */
  lemma {:induction false} FirstWrittenLine(d: Dict<Value>, n: nat)
    requires d != [] && Serializable(d)
    ensures Serialize(d, n) != []
    ensures var line := Serialize(d, n)[0]; Indent(line) == n && !Skipped(line) && !IsItem(line)
  {
    var lines := Serialize(d, n);
    assert lines == EntryLines(d, n) + Serialize(d[1..], n);
    assert EntryLines(d, n)[0] == HeadLine(d, n);
    assert lines[0] == HeadLine(d, n);
    HeadLineClassified(lines, 0, d, n);
  }

  /** The look-ahead from inside a file only sees the lines after that point. */
  lemma {:induction false} PeekShift(a: seq<string>, b: seq<string>, j: nat, indent: int)
    ensures PeekIsList(a + b, |a| + j, indent) == PeekIsList(b, j, indent)
    decreases |b| - j
  {
    if j < |b| {
      assert (a + b)[|a| + j] == b[j];
      PeekShift(a, b, j + 1, indent);
    }
  }

  /** A line classifies the same whatever lines come before it. */
  lemma {:induction false} ClassifyShift(a: seq<string>, b: seq<string>, j: nat)
    requires j < |b|
    ensures Classify(a + b, |a| + j) == Classify(b, j)
  {
    assert (a + b)[|a| + j] == b[j];
    PeekShift(a, b, j + 1, Indent(b[j]));
  }

  /** A look-ahead that finds a list for a deeper line finds one for a shallower line too. */
  lemma {:induction false} PeekDeeper(lines: seq<string>, from: nat, shallow: int, deep: int)
    requires shallow <= deep && PeekIsList(lines, from, deep)
    ensures PeekIsList(lines, from, shallow)
    decreases |lines| - from
  {
    if Skipped(lines[from]) {
      PeekDeeper(lines, from + 1, shallow, deep);
    }
  }

  /** After the lines of a tree indented by `n`, the look-ahead for `n` still finds no list. */
  lemma {:induction false} QuietAfter(d: Dict<Value>, n: nat, post: seq<string>)
    requires Serializable(d) && !PeekIsList(post, 0, n)
    ensures !PeekIsList(Serialize(d, n) + post, 0, n)
  {
    if d == [] {
      assert Serialize(d, n) + post == post;
    } else {
      FirstWrittenLine(d, n);
      PeekAtSignificant(Serialize(d, n) + post, 0, n);
    }
  }

  /** The first `|ks|` lines of `lines` classify as `ks`. */
  predicate ClassifiesAs(lines: seq<string>, ks: seq<LineKind>)
  {
    |ks| <= |lines| && forall j :: 0 <= j < |ks| ==> Classify(lines, j) == ks[j]
  }

  /** Kinds of a front part and of what follows it join up. */
  lemma {:induction false} ClassifiesConcat(a: seq<string>, b: seq<string>, ka: seq<LineKind>, kb: seq<LineKind>)
    requires |ka| == |a| && ClassifiesAs(a + b, ka) && ClassifiesAs(b, kb)
    ensures ClassifiesAs(a + b, ka + kb)
  {
    forall j | 0 <= j < |ka + kb|
      ensures Classify(a + b, j) == (ka + kb)[j]
    {
      if j >= |a| {
        ClassifyShift(a, b, j - |a|);
      }
    }
  }

  /**
    * Every line written for `d` at indentation `n`, followed by lines whose
    * look-ahead finds no list deeper than `n`, classifies as its kind.
    */
  lemma {:induction false} WrittenClassified(d: Dict<Value>, n: nat, post: seq<string>)
    requires Serializable(d) && !PeekIsList(post, 0, n)
    ensures |Kinds(d, n)| == |Serialize(d, n)|
    ensures ClassifiesAs(Serialize(d, n) + post, Kinds(d, n))
    decreases d, 3
  {
    WrittenLength(d, n);
    if d != [] {
      WrittenClassifiedCons(d, n, post);
    } else {
      assert Kinds(d, n) == [];
    }
  }

  lemma {:induction false} WrittenClassifiedCons(d: Dict<Value>, n: nat, post: seq<string>)
    requires d != [] && Serializable(d) && !PeekIsList(post, 0, n)
    ensures ClassifiesAs(Serialize(d, n) + post, Kinds(d, n))
    decreases d, 2
  {
    KindsCons(d, n);
    var head, tail := EntryLines(d, n), Serialize(d[1..], n);
    var rest := tail + post;
    QuietAfter(d[1..], n, post);
    EntryClassified(d, n, rest);
    WrittenClassified(d[1..], n, post);
    ClassifiesConcat(head, rest, EntryKinds(d, n), Kinds(d[1..], n));
    SerializeCons(d, n, post);
  }

  lemma {:induction false} SerializeCons(d: Dict<Value>, n: nat, post: seq<string>)
    requires d != [] && Serializable(d)
    ensures Serializable(d[1..])
    ensures Serialize(d, n) + post == EntryLines(d, n) + (Serialize(d[1..], n) + post)
  {
    assert Serialize(d, n) == EntryLines(d, n) + Serialize(d[1..], n);
  }

  lemma {:induction false} EntryClassified(d: Dict<Value>, n: nat, rest: seq<string>)
    requires d != [] && Serializable(d) && !PeekIsList(rest, 0, n)
    ensures |EntryKinds(d, n)| == |EntryLines(d, n)|
    ensures ClassifiesAs(EntryLines(d, n) + rest, EntryKinds(d, n))
    decreases d, 1
  {
    EntryLength(d, n);
    SerializableFirst(d);
    if d[0].1.Map? {
      MapEntryClassified(d, n, rest);
    } else if d[0].1.List? {
      ListEntryClassified(d, n, rest);
    } else {
      var lines := EntryLines(d, n) + rest;
      assert lines[0] == HeadLine(d, n);
      assert EntryKinds(d, n) == [HeadKind(d, n)];
      HeadLineClassified(lines, 0, d, n);
    }
  }

  /** `EntryClassified` for a nested dict. */
  lemma {:induction false} MapEntryClassified(d: Dict<Value>, n: nat, rest: seq<string>)
    requires d != [] && Serializable(d) && !PeekIsList(rest, 0, n) && d[0].1.Map?
    ensures ClassifiesAs(EntryLines(d, n) + rest, EntryKinds(d, n))
    decreases d, 0
  {
    MapEntryShape(d, n);
    var e := d[0].1.entries;
    assert d[0] in d && d[0].1 < d[0];
    NestedClassified(e, n, rest);
    OpenerThenBody(EntryLines(d, n) + rest, EntryKinds(d, n), HeadLine(d, n), Serialize(e, n + 2), rest,
                   n, d[0].0, false, Kinds(e, n + 2));
  }

  /** The lines of a nested dict, two spaces deeper than its `key:` line, classify as its kinds. */
  lemma {:induction false} NestedClassified(e: Dict<Value>, n: nat, rest: seq<string>)
    requires Serializable(e) && !PeekIsList(rest, 0, n)
    ensures ClassifiesAs(Serialize(e, n + 2) + rest, Kinds(e, n + 2))
    ensures !PeekIsList(Serialize(e, n + 2) + rest, 0, n)
    decreases e, 4
  {
    if PeekIsList(rest, 0, n + 2) {
      PeekDeeper(rest, 0, n, n + 2);
    }
    WrittenClassified(e, n + 2, rest);
    BlockPeek(e, n, rest);
  }

  /** The lines and kinds of a nested dict entry: `key:`, then the dict two spaces deeper. */
  lemma {:induction false} MapEntryShape(d: Dict<Value>, n: nat)
    requires d != [] && Serializable(d) && d[0].1.Map?
    ensures Serializable(d[0].1.entries) && WritableKey(d[0].0)
    ensures HeadLine(d, n) == Spaces(n) + d[0].0 + ":"
    ensures EntryLines(d, n) == [HeadLine(d, n)] + Serialize(d[0].1.entries, n + 2)
    ensures EntryKinds(d, n) == [Opener(n, d[0].0, false)] + Kinds(d[0].1.entries, n + 2)
  {
    SerializableFirst(d);
  }

  /** Below a `key:` line, the look-ahead finds no list in a nested dict. */
  lemma {:induction false} BlockPeek(e: Dict<Value>, n: nat, rest: seq<string>)
    requires Serializable(e) && !PeekIsList(rest, 0, n)
    ensures !PeekIsList(Serialize(e, n + 2) + rest, 0, n)
  {
    if e != [] {
      FirstWrittenLine(e, n + 2);
      PeekAtSignificant(Serialize(e, n + 2) + rest, 0, n);
    } else {
      assert Serialize(e, n + 2) + rest == rest;
    }
  }

  /** `EntryClassified` for a list. */
  lemma {:induction false} ListEntryClassified(d: Dict<Value>, n: nat, rest: seq<string>)
    requires d != [] && Serializable(d) && d[0].1.List?
    ensures ClassifiesAs(EntryLines(d, n) + rest, EntryKinds(d, n))
  {
    ListEntryShape(d, n);
    var items := d[0].1.items;
    ItemsClassified(items, n + 2, rest);
    ItemsPeek(items, n + 2, n, rest);
    OpenerThenBody(EntryLines(d, n) + rest, EntryKinds(d, n), HeadLine(d, n), ItemLines(items, n + 2), rest,
                   n, d[0].0, true, ItemKinds(items, n + 2));
  }

  /** The lines and kinds of a list entry: `key:`, then one item line per item. */
  lemma {:induction false} ListEntryShape(d: Dict<Value>, n: nat)
    requires d != [] && Serializable(d) && d[0].1.List?
    ensures WritableKey(d[0].0) && d[0].1.items != [] && RenderableItems(d[0].1.items)
    ensures HeadLine(d, n) == Spaces(n) + d[0].0 + ":"
    ensures EntryLines(d, n) == [HeadLine(d, n)] + ItemLines(d[0].1.items, n + 2)
    ensures EntryKinds(d, n) == [Opener(n, d[0].0, true)] + ItemKinds(d[0].1.items, n + 2)
  {
    SerializableFirst(d);
  }

  /** Below a `key:` line, the look-ahead finds the list of its item lines. */
  lemma {:induction false} ItemsPeek(items: seq<Value>, m: nat, n: nat, rest: seq<string>)
    requires items != [] && RenderableItems(items) && n < m
    ensures PeekIsList(ItemLines(items, m) + rest, 0, n)
  {
    var lines := ItemLines(items, m) + rest;
    assert lines[0] == Spaces(m) + "- " + Render(items[0]);
    ItemLine(m, items[0]);
    PeekAtSignificant(lines, 0, n);
  }

  /** A `key:` line whose look-ahead decides `isList`, followed by lines classifying as `kb`. */
  lemma {:induction false} OpenerThenBody(lines: seq<string>, ks: seq<LineKind>, head: string, body: seq<string>,
                                          rest: seq<string>, n: nat, k: string, isList: bool, kb: seq<LineKind>)
    requires WritableKey(k) && head == Spaces(n) + k + ":"
    requires lines == [head] + body + rest && ks == [Opener(n, k, isList)] + kb
    requires PeekIsList(body + rest, 0, n) == isList && ClassifiesAs(body + rest, kb)
    ensures ClassifiesAs(lines, ks)
  {
    var below := body + rest;
    Regroup(head, body, rest);
    OpenerHead(head, below, n, k);
    ClassifiesConcat([head], below, [Opener(n, k, isList)], kb);
  }

  lemma {:induction false} Regroup(head: string, body: seq<string>, rest: seq<string>)
    ensures [head] + body + rest == [head] + (body + rest)
  {
  }

  /** A `key:` line in front of `below` reads as an opener whose kind the look-ahead into `below` decides. */
  lemma {:induction false} OpenerHead(head: string, below: seq<string>, n: nat, k: string)
    requires WritableKey(k) && head == Spaces(n) + k + ":"
    ensures ClassifiesAs([head] + below, [Opener(n, k, PeekIsList(below, 0, n))])
  {
    OpenerLineClassified([head] + below, 0, n, k);
    PeekShift([head], below, 0, n);
  }

  /** The item lines of a list, whatever follows them, classify as its items. */
  lemma {:induction false} ItemsClassified(items: seq<Value>, m: nat, post: seq<string>)
    requires RenderableItems(items)
    ensures ClassifiesAs(ItemLines(items, m) + post, ItemKinds(items, m))
  {
    var lines := ItemLines(items, m) + post;
    forall j | 0 <= j < |items|
      ensures Classify(lines, j) == ItemKinds(items, m)[j]
    {
      assert lines[j] == ItemLines(items, m)[j];
      ItemLineClassified(lines, j, m, items[j]);
    }
  }

  // ---------------------------------------------------------------------
  // How the parser builds the tree back
  // ---------------------------------------------------------------------

  /** The steps of the main loop over `ks`, the first of them being line `base`. */
  function Steps(ks: seq<LineKind>, base: nat, st: ParserState): (r: Result<ParserState, ParseError>)
    requires Valid(st)
    ensures r.Ok? ==> Valid(r.value)
    decreases |ks|
  {
    if ks == [] then Ok(st)
    else match Step(ks[0], base, st)
      case Err(e) => Err(e)
      case Ok(next) => Steps(ks[1..], base + 1, next)
  }

  lemma {:induction false} StepsAppend(a: seq<LineKind>, b: seq<LineKind>, base: nat, st: ParserState)
    requires Valid(st)
    ensures Steps(a + b, base, st) ==
              match Steps(a, base, st)
              case Err(e) => Err(e)
              case Ok(mid) => Steps(b, base + |a|, mid)
    decreases |a|, 1
  {
    if a == [] {
      assert a + b == b;
    } else if Step(a[0], base, st).Ok? {
      StepsAppendOk(a, b, base, st);
    } else {
      var ab := a + b;
      assert ab[0] == a[0];
    }
  }

  lemma {:induction false} StepsAppendOk(a: seq<LineKind>, b: seq<LineKind>, base: nat, st: ParserState)
    requires Valid(st) && a != [] && Step(a[0], base, st).Ok?
    ensures Steps(a + b, base, st) ==
              match Steps(a, base, st)
              case Err(e) => Err(e)
              case Ok(mid) => Steps(b, base + |a|, mid)
    decreases |a|, 0
  {
    var ab := a + b;
    assert ab[0] == a[0] && ab[1..] == a[1..] + b;
    var next := Step(a[0], base, st).value;
    assert Steps(ab, base, st) == Steps(a[1..] + b, base + 1, next);
    assert Steps(a, base, st) == Steps(a[1..], base + 1, next);
    StepsAppend(a[1..], b, base + 1, next);
  }

  /** Once `a` has run to `mid`, what follows it runs from `mid`. */
  lemma {:induction false} StepsAfter(a: seq<LineKind>, b: seq<LineKind>, base: nat, next: nat, st: ParserState, mid: ParserState)
    requires Valid(st) && Steps(a, base, st) == Ok(mid) && next == base + |a|
    ensures Steps(a + b, base, st) == Steps(b, next, mid)
  {
    StepsAppend(a, b, base, st);
  }

  /** Once `a` is rejected, nothing after it runs. */
  lemma {:induction false} StepsStopped(a: seq<LineKind>, b: seq<LineKind>, base: nat, st: ParserState)
    requires Valid(st) && Steps(a, base, st).Err?
    ensures Steps(a + b, base, st) == Steps(a, base, st)
  {
    StepsAppend(a, b, base, st);
  }

  /** The main loop run front to back is `Run`. */
  lemma {:induction false} RunIsSteps(ks: seq<LineKind>, n: nat)
    requires n <= |ks|
    ensures Run(ks, n) == Steps(ks[..n], 0, Init)
  {
    if n > 0 {
      RunIsSteps(ks, n - 1);
      RunOneMore(ks, n);
    }
  }

  lemma {:induction false} RunOneMore(ks: seq<LineKind>, n: nat)
    requires 0 < n <= |ks| && Run(ks, n - 1) == Steps(ks[..n - 1], 0, Init)
    ensures Run(ks, n) == Steps(ks[..n], 0, Init)
  {
    var m := n - 1;
    var front, k := ks[..m], ks[m];
    assert ks[..n] == front + [k];
    var r := Run(ks, m);
    if r.Ok? {
      RunOneMoreOk(ks, n, front, k, r.value);
    } else {
      RunOneMoreErr(ks, n, front, k);
    }
  }

  lemma {:induction false} RunOneMoreOk(ks: seq<LineKind>, n: nat, front: seq<LineKind>, k: LineKind, st: ParserState)
    requires 0 < n <= |ks| && front == ks[..n - 1] && k == ks[n - 1] && ks[..n] == front + [k]
    requires Run(ks, n - 1) == Ok(st) && Steps(front, 0, Init) == Ok(st)
    ensures Run(ks, n) == Steps(ks[..n], 0, Init)
  {
    StepsAfter(front, [k], 0, n - 1, Init, st);
    StepsSingle(k, n - 1, st);
  }

  lemma {:induction false} RunOneMoreErr(ks: seq<LineKind>, n: nat, front: seq<LineKind>, k: LineKind)
    requires 0 < n <= |ks| && front == ks[..n - 1] && ks[..n] == front + [k]
    requires Run(ks, n - 1).Err? && Run(ks, n - 1) == Steps(front, 0, Init)
    ensures Run(ks, n) == Steps(ks[..n], 0, Init)
  {
    StepsStopped(front, [k], 0, Init);
  }

  lemma {:induction false} StepsSingle(k: LineKind, base: nat, st: ParserState)
    requires Valid(st)
    ensures Steps([k], base, st) == Step(k, base, st)
  {
    assert [k][1..] == [];
  }

  /** Popping for a deeper line, then for a shallower one, is popping for the shallower one. */
  lemma {:induction false} PoppedTwice(st: ParserState, shallow: int, deep: int)
    requires Valid(st) && shallow <= deep
    ensures Popped(Popped(st, deep), shallow) == Popped(st, shallow)
    decreases |st.open|
  {
    if st.open != [] && deep <= TopIndent(st.open) {
      PoppedTwice(Pop(st), shallow, deep);
    }
  }

  /** Nothing is popped for a line deeper than every open entry. */
  lemma {:induction false} PoppedNothing(st: ParserState, indent: int)
    requires Valid(st) && TopIndent(st.open) < indent
    ensures Popped(st, indent) == st
  {
  }

  /** A key that is not present is appended. */
  lemma {:induction false} PutNew(a: Dict<Value>, k: string, v: Value)
    requires k !in Keys(a)
    ensures Put(a, k, v) == a + [(k, v)]
  {
    if a != [] {
      assert a[0].0 == Keys(a)[0];
      assert Keys(a[1..]) == Keys(a)[1..];
      PutNew(a[1..], k, v);
      assert a == [a[0]] + a[1..];
    }
  }

  lemma {:induction false} KeysAppend(a: Dict<Value>, b: Dict<Value>)
    ensures Keys(a + b) == Keys(a) + Keys(b)
  {
    assert forall i :: 0 <= i < |a + b| ==> Keys(a + b)[i] == (Keys(a) + Keys(b))[i];
  }

  /** Writing a key that was just appended replaces its value in place. */
  lemma {:induction false} PutLast(a: Dict<Value>, k: string, x: Value, y: Value)
    requires k !in Keys(a)
    ensures Put(a + [(k, x)], k, y) == a + [(k, y)]
  {
    if a == [] {
      assert a + [(k, x)] == [(k, x)];
    } else {
      var ax := a + [(k, x)];
      assert ax[0] == a[0] && ax[1..] == a[1..] + [(k, x)];
      assert a[0].0 == Keys(a)[0] && Keys(a[1..]) == Keys(a)[1..];
      PutLast(a[1..], k, x, y);
      assert a + [(k, y)] == [a[0]] + (a[1..] + [(k, y)]);
    }
  }

  /** None of the keys of `d` is already held by `a`. */
  predicate Fresh(a: Dict<Value>, d: Dict<Value>)
  {
    forall i :: 0 <= i < |d| ==> d[i].0 !in Keys(a)
  }

  /** After the first entry of `d` is added, the rest of `d` is still fresh. */
  lemma {:induction false} StillFresh(a: Dict<Value>, d: Dict<Value>, v: Value)
    requires d != [] && Serializable(d) && Fresh(a, d)
    ensures Fresh(a + [(d[0].0, v)], d[1..])
  {
    SerializableFirst(d);
    KeysAppend(a, [(d[0].0, v)]);
    forall i | 0 <= i < |d[1..]|
      ensures d[1..][i].0 != d[0].0
    {
      assert Keys(d[1..])[i] == d[1..][i].0;
    }
  }

  /** The items of a list, one line each, are appended in order. */
  lemma {:induction false} ItemSteps(items: seq<Value>, m: nat, base: nat, st: ParserState)
    requires Valid(st) && st.current.List? && TopIndent(st.open) < m
    ensures Steps(ItemKinds(items, m), base, st) == Ok(ParserState(st.open, List(st.current.items + items)))
    decreases |items|
  {
    var ks := ItemKinds(items, m);
    if items == [] {
      assert st.current.items + items == st.current.items;
    } else {
      var next := ParserState(st.open, List(st.current.items + [items[0]]));
      assert Step(ks[0], base, st) == Ok(next);
      assert ks[1..] == ItemKinds(items[1..], m);
      ItemSteps(items[1..], m, base + 1, next);
      assert st.current.items + [items[0]] + items[1..] == st.current.items + items;
    }
  }

  /**
    * The kinds of the lines written for `d` at indentation `n`, from a state
    * whose innermost container after popping for `n` is a dict `a`, leave a
    * state that pops for `n` to the same entries with `a + d`.
    */
  lemma {:induction false} WrittenSteps(d: Dict<Value>, n: nat, base: nat, st: ParserState) returns (fin: ParserState)
    requires Serializable(d) && Valid(st) && Popped(st, n).current.Map?
    requires Fresh(Popped(st, n).current.entries, d)
    ensures Steps(Kinds(d, n), base, st) == Ok(fin) && Valid(fin)
    ensures Popped(fin, n) == ParserState(Popped(st, n).open, Map(Popped(st, n).current.entries + d))
    decreases d, 3
  {
    if d == [] {
      fin := st;
      assert Popped(st, n).current.entries + d == Popped(st, n).current.entries;
    } else {
      fin := WrittenStepsCons(d, n, base, st);
    }
  }

  lemma {:induction false} WrittenStepsCons(d: Dict<Value>, n: nat, base: nat, st: ParserState) returns (fin: ParserState)
    requires d != [] && Serializable(d) && Valid(st) && Popped(st, n).current.Map?
    requires Fresh(Popped(st, n).current.entries, d)
    ensures Steps(Kinds(d, n), base, st) == Ok(fin) && Valid(fin)
    ensures Popped(fin, n) == ParserState(Popped(st, n).open, Map(Popped(st, n).current.entries + d))
    decreases d, 2
  {
    var a := Popped(st, n).current.entries;
    var mid := EntrySteps(d, n, base, st);
    var next := base + |EntryKinds(d, n)|;
    fin := RestSteps(d, n, next, mid, a);
    ChainKinds(d, n, base, next, st, mid, fin);
    ConsAppend(a, d);
  }

  /** The first entry runs to `mid` and the rest from there to `fin`: the whole tree runs to `fin`. */
  lemma {:induction false} ChainKinds(d: Dict<Value>, n: nat, base: nat, next: nat, st: ParserState, mid: ParserState, fin: ParserState)
    requires d != [] && Serializable(d) && Valid(st) && Valid(mid) && next == base + |EntryKinds(d, n)|
    requires Steps(EntryKinds(d, n), base, st) == Ok(mid)
    requires Steps(Kinds(d[1..], n), next, mid) == Ok(fin)
    ensures Steps(Kinds(d, n), base, st) == Ok(fin)
  {
    KindsCons(d, n);
    StepsAfter(EntryKinds(d, n), Kinds(d[1..], n), base, next, st, mid);
  }

  /** After the first entry, the rest of `d` goes into the same dict. */
  lemma {:induction false} RestSteps(d: Dict<Value>, n: nat, base: nat, mid: ParserState, a: Dict<Value>) returns (fin: ParserState)
    requires d != [] && Serializable(d) && Valid(mid) && Fresh(a, d)
    requires Popped(mid, n).current == Map(a + [d[0]])
    ensures Steps(Kinds(d[1..], n), base, mid) == Ok(fin) && Valid(fin)
    ensures Popped(fin, n) == ParserState(Popped(mid, n).open, Map(a + [d[0]] + d[1..]))
    decreases d, 1
  {
    SerializableFirst(d);
    StillFresh(a, d, d[0].1);
    fin := WrittenSteps(d[1..], n, base, mid);
  }

  lemma {:induction false} KindsCons(d: Dict<Value>, n: nat)
    requires d != [] && Serializable(d)
    ensures Serializable(d[1..])
    ensures Kinds(d, n) == EntryKinds(d, n) + Kinds(d[1..], n)
  {
  }

  lemma {:induction false} ConsAppend(a: Dict<Value>, d: Dict<Value>)
    requires d != []
    ensures a + [d[0]] + d[1..] == a + d
  {
    assert d == [d[0]] + d[1..];
  }

  /** The kinds of the first entry of `d`: the state pops for `n` to `a` with that entry added. */
  lemma {:induction false} EntrySteps(d: Dict<Value>, n: nat, base: nat, st: ParserState) returns (mid: ParserState)
    requires d != [] && Serializable(d) && Valid(st) && Popped(st, n).current.Map?
    requires Fresh(Popped(st, n).current.entries, d)
    ensures Steps(EntryKinds(d, n), base, st) == Ok(mid) && Valid(mid)
    ensures Popped(mid, n) == ParserState(Popped(st, n).open, Map(Popped(st, n).current.entries + [d[0]]))
    decreases d, 1
  {
    if d[0].1.Map? {
      mid := MapEntrySteps(d, n, base, st);
    } else if d[0].1.List? {
      mid := ListEntrySteps(d, n, base, st);
    } else {
      mid := ScalarEntrySteps(d, n, base, st);
    }
  }

  /** `EntrySteps` for a nested dict. */
  lemma {:induction false} MapEntrySteps(d: Dict<Value>, n: nat, base: nat, st: ParserState) returns (mid: ParserState)
    requires d != [] && Serializable(d) && Valid(st) && Popped(st, n).current.Map? && d[0].1.Map?
    requires Fresh(Popped(st, n).current.entries, d)
    ensures Steps(EntryKinds(d, n), base, st) == Ok(mid) && Valid(mid)
    ensures Popped(mid, n) == ParserState(Popped(st, n).open, Map(Popped(st, n).current.entries + [d[0]]))
    decreases d, 0
  {
    MapEntryShape(d, n);
    var k, e := d[0].0, d[0].1.entries;
    assert d[0] in d && d[0].1 < d[0];
    assert k !in Keys(Popped(st, n).current.entries);
    mid := OpenedDictSteps(k, n, e, base, st);
  }

  /** A `key:` line followed by the lines of a nested dict adds that dict under the key. */
  lemma {:induction false} OpenedDictSteps(k: string, n: nat, e: Dict<Value>, base: nat, st: ParserState) returns (mid: ParserState)
    requires Valid(st) && Popped(st, n).current.Map? && k !in Keys(Popped(st, n).current.entries)
    requires Serializable(e)
    ensures Steps([Opener(n, k, false)] + Kinds(e, n + 2), base, st) == Ok(mid) && Valid(mid)
    ensures Popped(mid, n) == ParserState(Popped(st, n).open, Map(Popped(st, n).current.entries + [(k, Map(e))]))
    decreases e, 5
  {
    var p := Popped(st, n);
    var block := OpenBlock(p, k, n, Map([]));
    OpenerStep(k, n, false, base, st);
    mid := DictUnderOpener(p, k, n, e, base + 1);
    StepsAfter([Opener(n, k, false)], Kinds(e, n + 2), base, base + 1, st, block);
    ClosedAfterDict(p, k, n, e, mid);
  }

  /** After the nested dict, popping for the `key:` line's indentation closes the entry. */
  lemma {:induction false} ClosedAfterDict(p: ParserState, k: string, n: nat, e: Dict<Value>, mid: ParserState)
    requires Valid(p) && p.current.Map? && TopIndent(p.open) < n && k !in Keys(p.current.entries)
    requires Valid(mid) && Popped(mid, n + 2) == ParserState(OpenBlock(p, k, n, Map([])).open, Map(e))
    ensures Popped(mid, n) == ParserState(p.open, Map(p.current.entries + [(k, Map(e))]))
  {
    PoppedTwice(mid, n, n + 2);
    CloseEntry(p, k, n, Map([]), Map(e), Popped(mid, n + 2));
  }

  /** The lines of a nested dict under a just-opened `key:` rebuild that dict. */
  lemma {:induction false} DictUnderOpener(p: ParserState, k: string, n: nat, e: Dict<Value>, base: nat) returns (fin: ParserState)
    requires Valid(p) && p.current.Map? && TopIndent(p.open) < n && Serializable(e)
    ensures Steps(Kinds(e, n + 2), base, OpenBlock(p, k, n, Map([]))) == Ok(fin) && Valid(fin)
    ensures Popped(fin, n + 2) == ParserState(OpenBlock(p, k, n, Map([])).open, Map(e))
    decreases e, 4
  {
    var block := OpenBlock(p, k, n, Map([]));
    PoppedNothing(block, n + 2);
    assert Fresh([], e);
    fin := WrittenSteps(e, n + 2, base, block);
    assert [] + e == e;
  }

  /** `EntrySteps` for a list. */
  lemma {:induction false} ListEntrySteps(d: Dict<Value>, n: nat, base: nat, st: ParserState) returns (mid: ParserState)
    requires d != [] && Serializable(d) && Valid(st) && Popped(st, n).current.Map? && d[0].1.List?
    requires Fresh(Popped(st, n).current.entries, d)
    ensures Steps(EntryKinds(d, n), base, st) == Ok(mid) && Valid(mid)
    ensures Popped(mid, n) == ParserState(Popped(st, n).open, Map(Popped(st, n).current.entries + [d[0]]))
  {
    ListEntryShape(d, n);
    var p := Popped(st, n);
    var k, items := d[0].0, d[0].1.items;
    var hk := Opener(n, k, true);
    assert k !in Keys(p.current.entries);
    var block := OpenBlock(p, k, n, List([]));
    OpenerStep(k, n, true, base, st);
    mid := ParserState(block.open, List(items));
    ItemsUnderOpener(p, k, n, items, base + 1);
    StepsAfter([hk], ItemKinds(items, n + 2), base, base + 1, st, block);
    CloseEntry(p, k, n, List([]), List(items), mid);
  }

  /** The item lines under a just-opened `key:` fill its list. */
  lemma {:induction false} ItemsUnderOpener(p: ParserState, k: string, n: nat, items: seq<Value>, base: nat)
    requires Valid(p) && p.current.Map? && TopIndent(p.open) < n
    ensures var block := OpenBlock(p, k, n, List([]));
            Steps(ItemKinds(items, n + 2), base, block) == Ok(ParserState(block.open, List(items)))
  {
    var block := OpenBlock(p, k, n, List([]));
    ItemSteps(items, n + 2, base, block);
    assert [] + items == items;
  }

  /** `EntrySteps` for a scalar. */
  lemma {:induction false} ScalarEntrySteps(d: Dict<Value>, n: nat, base: nat, st: ParserState) returns (mid: ParserState)
    requires d != [] && Serializable(d) && Valid(st) && Popped(st, n).current.Map?
    requires !d[0].1.Map? && !d[0].1.List?
    requires Fresh(Popped(st, n).current.entries, d)
    ensures Steps(EntryKinds(d, n), base, st) == Ok(mid) && Valid(mid)
    ensures Popped(mid, n) == ParserState(Popped(st, n).open, Map(Popped(st, n).current.entries + [d[0]]))
  {
    var p := Popped(st, n);
    var a := p.current.entries;
    assert EntryKinds(d, n) == [Entry(n, d[0].0, d[0].1)];
    assert d[0].0 !in Keys(a);
    EntryStep(d[0].0, d[0].1, n, base, st);
    PutNew(a, d[0].0, d[0].1);
    mid := ParserState(p.open, Map(a + [d[0]]));
    PoppedNothing(mid, n);
  }

  /** A `key:` line, once popped for, opens an entry on the dict left. */
  lemma {:induction false} OpenerStep(k: string, n: nat, isList: bool, base: nat, st: ParserState)
    requires Valid(st) && Popped(st, n).current.Map?
    ensures TopIndent(Popped(st, n).open) < n
    ensures Steps([Opener(n, k, isList)], base, st)
            == Ok(OpenBlock(Popped(st, n), k, n, if isList then List([]) else Map([])))
  {
    var hk := Opener(n, k, isList);
    StepPlaces(hk, base, st);
    assert [hk][1..] == [];
  }

  /** A `key: value` line, once popped for, puts its entry in the dict left. */
  lemma {:induction false} EntryStep(k: string, v: Value, n: nat, base: nat, st: ParserState)
    requires Valid(st) && Popped(st, n).current.Map?
    ensures TopIndent(Popped(st, n).open) < n
    ensures Steps([Entry(n, k, v)], base, st)
            == Ok(ParserState(Popped(st, n).open, Map(Put(Popped(st, n).current.entries, k, v))))
  {
    var hk := Entry(n, k, v);
    StepPlaces(hk, base, st);
    assert [hk][1..] == [];
  }

  /** Closing a just-opened entry for a new key appends that key, with the container built under it. */
  lemma {:induction false} CloseEntry(p: ParserState, k: string, n: nat, c0: Value, v: Value, mid: ParserState)
    requires Valid(p) && p.current.Map? && TopIndent(p.open) < n && k !in Keys(p.current.entries)
    requires IsContainer(c0) && IsContainer(v)
    requires mid == ParserState(OpenBlock(p, k, n, c0).open, v)
    ensures Valid(mid)
    ensures Popped(mid, n) == ParserState(p.open, Map(p.current.entries + [(k, v)]))
  {
    var a := p.current.entries;
    PutNew(a, k, c0);
    PutLast(a, k, c0, v);
    assert mid.open == p.open + [Frame(n, k, a + [(k, c0)])];
    assert mid.open[..|mid.open| - 1] == p.open;
    assert Pop(mid) == ParserState(p.open, Map(a + [(k, v)]));
    PoppedNothing(Pop(mid), n);
  }

  // ---------------------------------------------------------------------
  // The round trip
  // ---------------------------------------------------------------------

  /** A tree written in the indentation format parses back to the same tree. */
  lemma {:induction false} RoundTrip(d: Dict<Value>)
    requires Serializable(d)
    ensures ParseYaml(Serialize(d, 0)) == Ok(Map(d))
  {
    var lines := Serialize(d, 0);
    var ks := Classified(lines);
    assert !PeekIsList([], 0, 0);
    WrittenClassified(d, 0, []);
    assert lines + [] == lines;
    forall j | 0 <= j < |lines|
      ensures ks[j] == Kinds(d, 0)[j]
    {
      ClassifiedAt(lines, j);
      assert Classify(lines, j) == Kinds(d, 0)[j];
    }
    assert ks == Kinds(d, 0);
    RunIsSteps(ks, |ks|);
    assert ks[..|ks|] == ks;
    PoppedNothing(Init, 0);
    var r := WrittenSteps(d, 0, 0, Init);
    assert [] + d == d;
    assert Document(r) == Document(Popped(r, 0));
  }
}
