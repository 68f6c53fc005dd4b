/**
  * `_load_yaml`: the indentation-driven parser for the configuration subset
  * of YAML. It reads the file line by line and keeps a stack of open
  * containers, each with the indentation of the line that opened it.
  *
  * In the source, the containers on the stack are the same dicts and lists
  * that hang inside the document, so a write to the innermost container is a
  * write to the document. Here each stack entry above the root keeps the dict
  * it was opened in and the key it hangs under, and the innermost container
  * is held apart: closing an entry writes its container back under its key.
  * Only the innermost container is ever written to, so the document is the
  * innermost container written back through every open entry. The root
  * entry `(-1, data)` is implicit, so it can never be popped.
  */
module YamlParser {
  import opened Common
  import opened Text
  import opened Dicts
  import opened Values
  import opened Scalars
  import opened Failures

  // ---------------------------------------------------------------------
  // Parser state
  // ---------------------------------------------------------------------

  predicate IsContainer(v: Value)
  {
    v.List? || v.Map?
  }

  /**
    * A stack entry above the root: the indentation of the `key:` line that
    * opened it, that key, and the dict holding the key, which is not written
    * to while the entry is open.
    */
  datatype Frame = Frame(indent: int, key: string, parent: Dict<Value>)

  /** The stack entries above the root, innermost last, and the innermost container. */
  datatype ParserState = ParserState(open: seq<Frame>, current: Value)

  /** The indentation of the innermost entry; the root's is -1. */
  function TopIndent(open: seq<Frame>): int
  {
    if open == [] then -1 else open[|open| - 1].indent
  }

  /** Indentation strictly increases from the root's -1 to the innermost entry. */
  predicate Ascending(open: seq<Frame>)
  {
    open == [] || (Ascending(open[..|open| - 1]) && TopIndent(open[..|open| - 1]) < open[|open| - 1].indent)
  }

  /**
    * The stack discipline: indentation strictly increases from the root's -1
    * upwards, the innermost container is a dict or a list, and with no entry
    * above the root it is the root dict.
    */
  predicate Valid(st: ParserState)
  {
    && Ascending(st.open)
    && IsContainer(st.current)
    && (st.open == [] ==> st.current.Map?)
  }

  const Init: ParserState := ParserState([], Map([]))

  /** `c`, written back under the key of every entry of `open`, innermost first. */
  function Close(open: seq<Frame>, c: Value): (v: Value)
    ensures open != [] ==> v.Map?
    ensures open == [] ==> v == c
  {
    if open == [] then c
    else
      var f := open[|open| - 1];
      Close(open[..|open| - 1], Map(Put(f.parent, f.key, c)))
  }

  /** The document as the root dict of the source holds it. */
  function Document(st: ParserState): (doc: Value)
    requires Valid(st)
    ensures doc.Map?
  {
    Close(st.open, st.current)
  }

  /**
    * The pops before a line indented by `indent`: entries go from the top
    * while they are at least as deep as the line; the root never goes.
    */
  function PopFrames(open: seq<Frame>, indent: int): (r: seq<Frame>)
    ensures |r| <= |open| && r == open[..|r|]
    ensures r == [] || TopIndent(r) < indent
    ensures |r| < |open| ==> indent <= open[|r|].indent
    ensures Ascending(open) ==> Ascending(r)
  {
    if open != [] && indent <= TopIndent(open) then PopFrames(open[..|open| - 1], indent) else open
  }

  /** Every entry above the root is indented by at least 0. */
  lemma {:induction false} AscendingAboveRoot(open: seq<Frame>)
    requires Ascending(open)
    ensures open == [] || TopIndent(open) >= 0
    decreases |open|
  {
    if open != [] {
      AscendingAboveRoot(open[..|open| - 1]);
    }
  }

  /** `stack.pop()`: the innermost entry goes and its dict becomes innermost; the document does not change. */
  function Pop(st: ParserState): (r: ParserState)
    requires Valid(st) && st.open != []
    ensures Valid(r) && r.open == st.open[..|st.open| - 1]
    ensures Document(r) == Document(st)
  {
    var f := st.open[|st.open| - 1];
    ParserState(st.open[..|st.open| - 1], Map(Put(f.parent, f.key, st.current)))
  }

  /** The state after popping for a line indented by `indent`. */
  function Popped(st: ParserState, indent: int): (r: ParserState)
    requires Valid(st)
    ensures Valid(r) && r.open == PopFrames(st.open, indent)
    ensures Document(r) == Document(st)
    decreases |st.open|
  {
    if st.open != [] && indent <= TopIndent(st.open) then Popped(Pop(st), indent) else st
  }

  // ---------------------------------------------------------------------
  // Lines
  // ---------------------------------------------------------------------

  /** Blank lines and comment lines are skipped. */
  predicate Skipped(line: string)
  {
    var s := Strip(line);
    s == [] || s[0] == '#'
  }

  predicate IsItem(line: string)
  {
    StartsWith(Strip(line), "- ")
  }

  /** The index of the first ':' of the stripped line. */
  function Colon(line: string): nat
  {
    Find(Strip(line), {':'})
  }

  predicate HasColon(line: string)
  {
    Colon(line) < |Strip(line)|
  }

  /** The key of a `key: value` line: the stripped text before the first ':'. */
  function KeyOf(line: string): string
    requires HasColon(line)
  {
    Strip(Strip(line)[..Colon(line)])
  }

  /** The value of a `key: value` line: the stripped text after the first ':'. */
  function ValueOf(line: string): string
    requires HasColon(line)
  {
    Strip(Strip(line)[Colon(line) + 1..])
  }

  /**
    * The look-ahead after a `key:` line: skipping blank and comment lines from
    * `from`, the first remaining line opens a list when it is indented deeper
    * than `indent` and is a `- ` item. No such line means a dict.
    */
  function PeekIsList(lines: seq<string>, from: nat, indent: int): bool
    decreases |lines| - from
  {
    if from >= |lines| then false
    else if Skipped(lines[from]) then PeekIsList(lines, from + 1, indent)
    else if Indent(lines[from]) <= indent then false
    else IsItem(lines[from])
  }

  /** Line `j` is the first line at or after `from` that is neither blank nor a comment. */
  predicate NextSignificant(lines: seq<string>, from: nat, j: nat)
  {
    && from <= j < |lines|
    && !Skipped(lines[j])
    && forall k :: from <= k < j ==> Skipped(lines[k])
  }

  /** When the look-ahead says list, the next significant line is a deeper `- ` item. */
  lemma {:induction false} PeekIsListSound(lines: seq<string>, from: nat, indent: int)
    requires PeekIsList(lines, from, indent)
    ensures exists j: nat :: NextSignificant(lines, from, j) && Indent(lines[j]) > indent && IsItem(lines[j])
    decreases |lines| - from
  {
    if Skipped(lines[from]) {
      PeekIsListSound(lines, from + 1, indent);
      var j: nat :| NextSignificant(lines, from + 1, j) && Indent(lines[j]) > indent && IsItem(lines[j]);
      assert NextSignificant(lines, from, j);
    } else {
      assert NextSignificant(lines, from, from);
    }
  }

  /** Blank and comment lines do not change the look-ahead. */
  lemma {:induction false} PeekSkipsTo(lines: seq<string>, from: nat, j: nat, indent: int)
    requires from <= j <= |lines| && forall k :: from <= k < j ==> Skipped(lines[k])
    ensures PeekIsList(lines, from, indent) == PeekIsList(lines, j, indent)
    decreases j - from
  {
    if from < j {
      assert Skipped(lines[from]);
      PeekSkipsTo(lines, from + 1, j, indent);
    }
  }

  /** When the next significant line is a deeper `- ` item, the look-ahead says list. */
  lemma PeekIsListComplete(lines: seq<string>, from: nat, indent: int, j: nat)
    requires NextSignificant(lines, from, j) && Indent(lines[j]) > indent && IsItem(lines[j])
    ensures PeekIsList(lines, from, indent)
  {
    PeekSkipsTo(lines, from, j, indent);
    PeekAtSignificant(lines, j, indent);
  }

  lemma PeekAtSignificant(lines: seq<string>, from: nat, indent: int)
    requires from < |lines| && !Skipped(lines[from])
    ensures PeekIsList(lines, from, indent) == (Indent(lines[from]) > indent && IsItem(lines[from]))
  {
  }

  /** The look-ahead opens a list exactly when the next significant line is deeper and an item. */
  lemma PeekIsListMeans(lines: seq<string>, from: nat, indent: int)
    ensures PeekIsList(lines, from, indent) <==>
              exists j: nat :: NextSignificant(lines, from, j) && Indent(lines[j]) > indent && IsItem(lines[j])
  {
    if PeekIsList(lines, from, indent) {
      PeekIsListSound(lines, from, indent);
    }
    if exists j: nat :: NextSignificant(lines, from, j) && Indent(lines[j]) > indent && IsItem(lines[j]) {
      var j: nat :| NextSignificant(lines, from, j) && Indent(lines[j]) > indent && IsItem(lines[j]);
      PeekIsListComplete(lines, from, indent, j);
    }
  }

  // ---------------------------------------------------------------------
  // What each line asks for
  // ---------------------------------------------------------------------

  /** The four ways a line is rejected. */
  datatype Fault =
    | MisplacedItem  // a `- ` item whose innermost container is a dict
    | NoColon        // neither an item nor a line with a ':'
    | ScalarInList   // `key: value` whose innermost container is a list
    | NestedInList   // `key:` whose innermost container is a list

  /** A rejected line: its 0-based index and why. */
  datatype ParseError = ParseError(at: nat, fault: Fault)

  /** What a rejected line looks like, whatever the state of the stack. */
  predicate Shape(line: string, fault: Fault)
  {
    && !Skipped(line)
    && match fault
       case MisplacedItem => IsItem(line)
       case NoColon => !IsItem(line) && !HasColon(line)
       case ScalarInList => !IsItem(line) && HasColon(line) && ValueOf(line) != []
       case NestedInList => !IsItem(line) && HasColon(line) && ValueOf(line) == []
  }

  /** The ConfigurationError the source raises for a rejected line. */
  function ToConfigError(lines: seq<string>, e: ParseError): ConfigError
    requires e.at < |lines|
  {
    var raw := lines[e.at];
    match e.fault
    case MisplacedItem => InvalidListPlacement(e.at + 1, raw)
    case NoColon => InvalidLine(raw)
    case ScalarInList => ScalarUnderList(raw)
    case NestedInList => NestedUnderList(raw)
  }

  /**
    * A line as the main loop reads it, before it looks at the stack: its
    * indentation and what it asks to be done. Only the look-ahead of a
    * `key:` line reads other lines.
    */
  datatype LineKind =
    | Blank                                          // empty or a comment
    | Item(indent: nat, item: Value)                 // `- value`
    | Bare(indent: nat)                              // neither an item nor a ':'
    | Entry(indent: nat, key: string, value: Value)  // `key: value`
    | Opener(indent: nat, key: string, isList: bool) // `key:`, and whether a list follows

  function Classify(lines: seq<string>, i: nat): (k: LineKind)
    requires i < |lines|
    ensures k.Blank? <==> Skipped(lines[i])
    ensures !k.Blank? ==> k.indent == Indent(lines[i])
  {
    var raw := lines[i];
    if Skipped(raw) then Blank
    else if IsItem(raw) then Item(Indent(raw), ParseScalar(Strip(raw)[2..]))
    else if !HasColon(raw) then Bare(Indent(raw))
    else if ValueOf(raw) != [] then Entry(Indent(raw), KeyOf(raw), ParseScalar(ValueOf(raw)))
    else Opener(Indent(raw), KeyOf(raw), PeekIsList(lines, i + 1, Indent(raw)))
  }

  /** Every line of the file, classified. */
  function Classified(lines: seq<string>): (ks: seq<LineKind>)
    ensures |ks| == |lines|
  {
    ClassifiedUpTo(lines, |lines|)
  }

  /** The first `n` lines, classified. */
  function ClassifiedUpTo(lines: seq<string>, n: nat): (ks: seq<LineKind>)
    requires n <= |lines|
    ensures |ks| == n
  {
    if n == 0 then [] else ClassifiedUpTo(lines, n - 1) + [Classify(lines, n - 1)]
  }

  /** Entry `i` of the classified file is line `i`, classified. */
  lemma ClassifiedAt(lines: seq<string>, i: nat)
    requires i < |lines|
    ensures Classified(lines)[i] == Classify(lines, i)
  {
    ClassifiedUpToAt(lines, |lines|, i);
  }

  lemma {:induction false} ClassifiedUpToAt(lines: seq<string>, n: nat, i: nat)
    requires i < n <= |lines|
    ensures ClassifiedUpTo(lines, n)[i] == Classify(lines, i)
  {
    var prev := ClassifiedUpTo(lines, n - 1);
    var last := Classify(lines, n - 1);
    assert ClassifiedUpTo(lines, n) == prev + [last];
    if i < n - 1 {
      ClassifiedUpToAt(lines, n - 1, i);
      assert (prev + [last])[i] == prev[i];
    }
  }

  /** The kind of line each fault is raised for. */
  predicate Fits(k: LineKind, fault: Fault)
  {
    match fault
    case MisplacedItem => k.Item?
    case NoColon => k.Bare?
    case ScalarInList => k.Entry?
    case NestedInList => k.Opener?
  }

  lemma FitsShape(lines: seq<string>, i: nat, fault: Fault)
    requires i < |lines| && Fits(Classify(lines, i), fault)
    ensures Shape(lines[i], fault)
  {
  }

  // ---------------------------------------------------------------------
  // One line, and the whole file
  // ---------------------------------------------------------------------

  /** `container[key] = child` and `stack.append((indent, child))`: the new, empty child becomes innermost. */
  function OpenBlock(st: ParserState, key: string, indent: nat, child: Value): (r: ParserState)
    requires Valid(st) && st.current.Map? && IsContainer(child)
    requires TopIndent(st.open) < indent
    ensures Valid(r)
  {
    var open := st.open + [Frame(indent, key, Put(st.current.entries, key, child))];
    assert open[..|st.open|] == st.open;
    ParserState(open, child)
  }

  /**
    * The effect of line `i`, of kind `k` (one iteration of the main loop):
    * blank and comment lines are skipped; otherwise entries are popped one
    * at a time while the innermost is at least as deep as the line, and the
    * line is placed in the innermost container left.
    */
  function Step(k: LineKind, i: nat, st: ParserState): (r: Result<ParserState, ParseError>)
    requires Valid(st)
    ensures r.Ok? ==> Valid(r.value)
    ensures r.Err? ==> r.error.at == i && Fits(k, r.error.fault)
    decreases |st.open|
  {
    if k.Blank? then Ok(st)
    else if st.open != [] && k.indent <= TopIndent(st.open) then Step(k, i, Pop(st))
    else Place(k, i, st)
  }

  /** A significant line first pops every entry at least as deep as itself, then is placed. */
  lemma {:induction false} StepPlaces(k: LineKind, i: nat, st: ParserState)
    requires Valid(st) && !k.Blank?
    ensures Step(k, i, st) == Place(k, i, Popped(st, k.indent))
    decreases |st.open|
  {
    if st.open != [] && k.indent <= TopIndent(st.open) {
      StepPlaces(k, i, Pop(st));
    }
  }

  /** A significant line `i`, once the stack has been popped down to its innermost container. */
  function Place(k: LineKind, i: nat, st: ParserState): (r: Result<ParserState, ParseError>)
    requires Valid(st) && !k.Blank? && TopIndent(st.open) < k.indent
    ensures r.Ok? ==> Valid(r.value)
    ensures r.Err? ==> r.error.at == i && Fits(k, r.error.fault)
  {
    var c := st.current;
    match k
    case Item(_, item) =>
      if c.List? then Ok(ParserState(st.open, List(c.items + [item])))
      else Err(ParseError(i, MisplacedItem))
    case Bare(_) =>
      Err(ParseError(i, NoColon))
    case Entry(_, key, value) =>
      if c.Map? then Ok(ParserState(st.open, Map(Put(c.entries, key, value))))
      else Err(ParseError(i, ScalarInList))
    case Opener(indent, key, isList) =>
      if c.Map? then Ok(OpenBlock(st, key, indent, if isList then List([]) else Map([])))
      else Err(ParseError(i, NestedInList))
  }

  /** The state after the first `n` lines, or the first of them that was rejected. */
  function Run(ks: seq<LineKind>, n: nat): (r: Result<ParserState, ParseError>)
    requires n <= |ks|
    ensures r.Ok? ==> Valid(r.value)
    ensures r.Err? ==> r.error.at < n && Fits(ks[r.error.at], r.error.fault)
  {
    if n == 0 then Ok(Init)
    else match Run(ks, n - 1)
      case Err(e) => Err(e)
      case Ok(st) => Step(ks[n - 1], n - 1, st)
  }

  /** `_load_yaml` of a file with these lines: the root dict, or the first rejected line. */
  function ParseYaml(lines: seq<string>): (r: Result<Value, ParseError>)
    ensures r.Ok? ==> r.value.Map?
    ensures r.Err? ==> r.error.at < |lines| && Shape(lines[r.error.at], r.error.fault)
  {
    match Run(Classified(lines), |lines|)
    case Ok(st) => Ok(Document(st))
    case Err(e) => ClassifiedAt(lines, e.at); FitsShape(lines, e.at, e.fault); Err(e)
  }

  /** The first rejected line ends the parse: nothing after it is read. */
  lemma {:induction false} ErrorPersists(ks: seq<LineKind>, n: nat, m: nat)
    requires n <= m <= |ks| && Run(ks, n).Err?
    ensures Run(ks, m) == Run(ks, n)
  {
    if n < m {
      ErrorPersists(ks, n, m - 1);
      assert Run(ks, m) == Run(ks, m - 1);
    }
  }

  // ---------------------------------------------------------------------
  // Properties of the parser
  // ---------------------------------------------------------------------

  /** `stripped.split(":", 1)`: whatever way the line is cut at a ':' with no ':' before it, key and value are the two sides. */
  lemma KeyIsBeforeFirstColon(line: string, k: string, v: string)
    requires Strip(line) == k + ":" + v && ':' !in k
    ensures HasColon(line) && KeyOf(line) == Strip(k) && ValueOf(line) == Strip(v)
  {
    var s := Strip(line);
    assert s[|k|] == ':';
    assert s[..|k|] == k;
    assert s[|k| + 1..] == v;
  }

  /** A run of blank and comment lines changes nothing. */
  lemma {:induction false} BlankLinesIgnored(ks: seq<LineKind>, i: nat, j: nat)
    requires i <= j <= |ks|
    requires forall n :: i <= n < j ==> ks[n].Blank?
    ensures Run(ks, j) == Run(ks, i)
  {
    if i < j {
      BlankLinesIgnored(ks, i, j - 1);
      var prev := Run(ks, j - 1);
      assert ks[j - 1].Blank?;
      if prev.Ok? {
        assert Step(ks[j - 1], j - 1, prev.value) == prev;
      }
    }
  }

  /** A line rejected whatever the stack holds: no ':' and not an item, or an item at the left margin. */
  predicate Doomed(k: LineKind)
  {
    k.Bare? || (k.Item? && k.indent == 0)
  }

  /** A doomed line fails in every state: a top-level item pops every entry and finds the root dict. */
  lemma DoomedLineFails(k: LineKind, i: nat, st: ParserState)
    requires Valid(st) && Doomed(k)
    ensures Step(k, i, st).Err?
  {
    StepPlaces(k, i, st);
    if k.Item? {
      AscendingAboveRoot(PopFrames(st.open, 0));
    }
  }

  /** A doomed line stops the parse there or earlier. */
  lemma {:induction false} FailsByLine(ks: seq<LineKind>, n: nat, m: nat)
    requires n < m <= |ks| && Doomed(ks[n])
    ensures Run(ks, m).Err? && Run(ks, m).error.at <= n
  {
    var prev := Run(ks, m - 1);
    if m > n + 1 {
      FailsByLine(ks, n, m - 1);
      assert Run(ks, m) == prev;
    } else if prev.Err? {
      assert Run(ks, m) == prev;
    } else {
      DoomedLineFails(ks[n], n, prev.value);
      assert Run(ks, m) == Step(ks[n], n, prev.value);
    }
  }

  /** A significant line that is neither a `- ` item nor has a ':' is rejected, so the file is. */
  lemma LineWithoutColonRejected(lines: seq<string>, n: nat)
    requires n < |lines| && Shape(lines[n], NoColon)
    ensures ParseYaml(lines).Err? && ParseYaml(lines).error.at <= n
  {
    ClassifiedAt(lines, n);
    FailsByLine(Classified(lines), n, |lines|);
  }

  /** A `- ` item at the left margin is rejected, so the file is. */
  lemma TopLevelItemRejected(lines: seq<string>, n: nat)
    requires n < |lines| && !Skipped(lines[n]) && IsItem(lines[n]) && Indent(lines[n]) == 0
    ensures ParseYaml(lines).Err? && ParseYaml(lines).error.at <= n
  {
    ClassifiedAt(lines, n);
    FailsByLine(Classified(lines), n, |lines|);
  }

  /** A `- ` item under a list appends its scalar to that list, which stays innermost. */
  lemma ItemAppends(lines: seq<string>, i: nat, st: ParserState)
    requires i < |lines| && Valid(st) && !Skipped(lines[i]) && IsItem(lines[i])
    requires Popped(st, Indent(lines[i])).current.List?
    ensures var r := Step(Classify(lines, i), i, st);
            && r.Ok?
            && r.value.open == PopFrames(st.open, Indent(lines[i]))
            && r.value.current == List(Popped(st, Indent(lines[i])).current.items + [ParseScalar(Strip(lines[i])[2..])])
  {
    StepPlaces(Classify(lines, i), i, st);
  }

  /**
    * `key: value` under a dict stores the typed value under the key and
    * leaves every other key alone; the stack keeps its popped shape.
    */
  lemma {:induction false} ScalarLineStores(lines: seq<string>, i: nat, st: ParserState)
    requires i < |lines| && Valid(st) && !Skipped(lines[i]) && !IsItem(lines[i])
    requires HasColon(lines[i]) && ValueOf(lines[i]) != []
    requires Popped(st, Indent(lines[i])).current.Map?
    ensures var r := Step(Classify(lines, i), i, st);
            && r.Ok?
            && r.value.open == PopFrames(st.open, Indent(lines[i]))
            && r.value.current.Map?
            && Get(r.value.current.entries, KeyOf(lines[i])) == Some(ParseScalar(ValueOf(lines[i])))
            && forall k :: k != KeyOf(lines[i]) ==>
                 Get(r.value.current.entries, k) == Get(Popped(st, Indent(lines[i])).current.entries, k)
  {
    var indent := Indent(lines[i]);
    var key, scalar := KeyOf(lines[i]), ParseScalar(ValueOf(lines[i]));
    var k := Classify(lines, i);
    assert k == Entry(indent, key, scalar);
    StepPlaces(k, i, st);
    var p := Popped(st, indent);
    var outer := p.current.entries;
    PlaceEntry(indent, key, scalar, i, p);
    PutGet(outer, key, scalar);
  }

  lemma {:induction false} PlaceEntry(indent: nat, key: string, value: Value, i: nat, p: ParserState)
    requires Valid(p) && TopIndent(p.open) < indent && p.current.Map?
    ensures Place(Entry(indent, key, value), i, p) == Ok(ParserState(p.open, Map(Put(p.current.entries, key, value))))
  {
  }

  /**
    * `key:` under a dict stores a new, empty container under the key and
    * makes it innermost: an empty list exactly when the next significant line
    * is deeper and a `- ` item, an empty dict otherwise.
    */
  lemma BlockOpenerOpens(lines: seq<string>, i: nat, st: ParserState)
    requires i < |lines| && Valid(st) && !Skipped(lines[i]) && !IsItem(lines[i])
    requires HasColon(lines[i]) && ValueOf(lines[i]) == []
    requires Popped(st, Indent(lines[i])).current.Map?
    ensures var r := Step(Classify(lines, i), i, st);
            var outer := Popped(st, Indent(lines[i])).current;
            && r.Ok?
            && r.value.open == PopFrames(st.open, Indent(lines[i])) +
                 [Frame(Indent(lines[i]), KeyOf(lines[i]), Put(outer.entries, KeyOf(lines[i]), r.value.current))]
            && (r.value.current == List([]) <==>
                  exists j: nat :: NextSignificant(lines, i + 1, j) && Indent(lines[j]) > Indent(lines[i]) && IsItem(lines[j]))
            && (r.value.current == Map([]) <==>
                  !exists j: nat :: NextSignificant(lines, i + 1, j) && Indent(lines[j]) > Indent(lines[i]) && IsItem(lines[j]))
  {
    StepPlaces(Classify(lines, i), i, st);
    PeekIsListMeans(lines, i + 1, Indent(lines[i]));
  }

  /** A `- ` item whose innermost container, after the pops, is a dict is rejected, at any indentation. */
  lemma {:induction false} ItemUnderDictRejected(lines: seq<string>, i: nat, st: ParserState)
    requires i < |lines| && Valid(st) && !Skipped(lines[i]) && IsItem(lines[i])
    requires Popped(st, Indent(lines[i])).current.Map?
    ensures Step(Classify(lines, i), i, st) == Err(ParseError(i, MisplacedItem))
  {
    StepPlaces(Classify(lines, i), i, st);
  }

  /** `key: value` whose innermost container, after the pops, is a list is rejected. */
  lemma {:induction false} EntryUnderListRejected(lines: seq<string>, i: nat, st: ParserState)
    requires i < |lines| && Valid(st) && !Skipped(lines[i]) && !IsItem(lines[i])
    requires HasColon(lines[i]) && ValueOf(lines[i]) != []
    requires Popped(st, Indent(lines[i])).current.List?
    ensures Step(Classify(lines, i), i, st) == Err(ParseError(i, ScalarInList))
  {
    StepPlaces(Classify(lines, i), i, st);
  }

  /** `key:` whose innermost container, after the pops, is a list is rejected. */
  lemma {:induction false} OpenerUnderListRejected(lines: seq<string>, i: nat, st: ParserState)
    requires i < |lines| && Valid(st) && !Skipped(lines[i]) && !IsItem(lines[i])
    requires HasColon(lines[i]) && ValueOf(lines[i]) == []
    requires Popped(st, Indent(lines[i])).current.List?
    ensures Step(Classify(lines, i), i, st) == Err(ParseError(i, NestedInList))
  {
    var k := Classify(lines, i);
    assert k.Opener? && k.indent == Indent(lines[i]);
    StepPlaces(k, i, st);
  }

  /** A line that fails when it is reached with no earlier error is the error of the whole file. */
  lemma {:induction false} FailingStepEndsParse(lines: seq<string>, i: nat, fault: Fault)
    requires i < |lines| && Run(Classified(lines), i).Ok?
    requires Step(Classify(lines, i), i, Run(Classified(lines), i).value) == Err(ParseError(i, fault))
    ensures ParseYaml(lines) == Err(ParseError(i, fault))
  {
    ClassifiedAt(lines, i);
    RunFailsAt(Classified(lines), i, ParseError(i, fault));
  }

  lemma {:induction false} RunFailsAt(ks: seq<LineKind>, i: nat, e: ParseError)
    requires i < |ks| && Run(ks, i).Ok? && Step(ks[i], i, Run(ks, i).value) == Err(e)
    ensures Run(ks, |ks|) == Err(e)
  {
    assert Run(ks, i + 1) == Err(e);
    ErrorPersists(ks, i + 1, |ks|);
  }

  /** The file fails at an item line reached with no earlier error whose innermost container is a dict. */
  lemma ParseRejectsItemUnderDict(lines: seq<string>, i: nat)
    requires i < |lines| && Run(Classified(lines), i).Ok?
    requires !Skipped(lines[i]) && IsItem(lines[i])
    requires Popped(Run(Classified(lines), i).value, Indent(lines[i])).current.Map?
    ensures ParseYaml(lines) == Err(ParseError(i, MisplacedItem))
  {
    ItemUnderDictRejected(lines, i, Run(Classified(lines), i).value);
    FailingStepEndsParse(lines, i, MisplacedItem);
  }

  /** The file fails at a `key: value` line reached with no earlier error whose innermost container is a list. */
  lemma ParseRejectsEntryUnderList(lines: seq<string>, i: nat)
    requires i < |lines| && Run(Classified(lines), i).Ok?
    requires !Skipped(lines[i]) && !IsItem(lines[i]) && HasColon(lines[i]) && ValueOf(lines[i]) != []
    requires Popped(Run(Classified(lines), i).value, Indent(lines[i])).current.List?
    ensures ParseYaml(lines) == Err(ParseError(i, ScalarInList))
  {
    EntryUnderListRejected(lines, i, Run(Classified(lines), i).value);
    FailingStepEndsParse(lines, i, ScalarInList);
  }

  /** The file fails at a `key:` line reached with no earlier error whose innermost container is a list. */
  lemma ParseRejectsOpenerUnderList(lines: seq<string>, i: nat)
    requires i < |lines| && Run(Classified(lines), i).Ok?
    requires !Skipped(lines[i]) && !IsItem(lines[i]) && HasColon(lines[i]) && ValueOf(lines[i]) == []
    requires Popped(Run(Classified(lines), i).value, Indent(lines[i])).current.List?
    ensures ParseYaml(lines) == Err(ParseError(i, NestedInList))
  {
    OpenerUnderListRejected(lines, i, Run(Classified(lines), i).value);
    FailingStepEndsParse(lines, i, NestedInList);
  }

  // ---------------------------------------------------------------------
  // The parser as the source writes it
  // ---------------------------------------------------------------------

  /**
    * The main loop over the lines, with the pop loop and the look-ahead loop
    * written out. `st` holds the document and the stack above the root.
    */
  method LoadYaml(lines: seq<string>) returns (r: Result<Value, ParseError>)
    ensures r == ParseYaml(lines)
  {
    ghost var ks := Classified(lines);
    var st := Init;
    var index := 0;
    while index < |lines|
      invariant index <= |lines|
      invariant Valid(st)
      invariant Run(ks, index) == Ok(st)
      decreases |lines| - index
    {
      var next := LoadLine(lines, index, st);
      assert Run(ks, index + 1) == next;
      index := index + 1;
      if next.Err? {
        ErrorPersists(ks, index, |lines|);
        return Err(next.error);
      }
      st := next.value;
    }
    return Ok(Document(st));
  }

  /** One iteration of the main loop: read line `i`, pop the stack down to it, place it. */
  method LoadLine(lines: seq<string>, i: nat, st: ParserState) returns (r: Result<ParserState, ParseError>)
    requires i < |lines| && Valid(st)
    ensures r == Step(Classified(lines)[i], i, st)
  {
    var kind := ReadLine(lines, i);
    if kind.Blank? {
      return Ok(st);
    }
    var top := st;
    while |top.open| > 0 && kind.indent <= TopIndent(top.open)
      invariant Valid(top)
      invariant Step(kind, i, top) == Step(kind, i, st)
      decreases |top.open|
    {
      top := Pop(top);
    }
    return Place(kind, i, top);
  }

  /**
    * The reading half of one iteration of the main loop: strip the line,
    * skip it if blank or a comment, test for `- `, split at the first ':',
    * and for `key:` look ahead.
    */
  method ReadLine(lines: seq<string>, i: nat) returns (kind: LineKind)
    requires i < |lines|
    ensures kind == Classified(lines)[i]
  {
    ClassifiedAt(lines, i);
    var rawLine := lines[i];
    var stripped := Strip(rawLine);
    if stripped == [] || stripped[0] == '#' {
      return Blank;
    }
    var indent := Indent(rawLine);
    if StartsWith(stripped, "- ") {
      return Item(indent, ParseScalar(stripped[2..]));
    }
    var colon := Find(stripped, {':'});
    if colon == |stripped| {
      return Bare(indent);
    }
    var key := Strip(stripped[..colon]);
    var valuePart := Strip(stripped[colon + 1..]);
    if valuePart != [] {
      return Entry(indent, key, ParseScalar(valuePart));
    }
    var nextIsList := PeekNextIsList(lines, i + 1, indent);
    return Opener(indent, key, nextIsList);
  }

  /** The look-ahead loop after a `key:` line indented by `indent`, starting at line `from`. */
  method PeekNextIsList(lines: seq<string>, from: nat, indent: int) returns (nextIsList: bool)
    ensures nextIsList == PeekIsList(lines, from, indent)
  {
    nextIsList := false;
    var peekIndex := from;
    while peekIndex < |lines|
      invariant from <= peekIndex
      invariant PeekIsList(lines, peekIndex, indent) == PeekIsList(lines, from, indent)
      decreases |lines| - peekIndex
    {
      var peekLine := lines[peekIndex];
      var peekStripped := Strip(peekLine);
      if peekStripped == [] || peekStripped[0] == '#' {
        PeekSkipsTo(lines, peekIndex, peekIndex + 1, indent);
        peekIndex := peekIndex + 1;
        continue;
      }
      PeekAtSignificant(lines, peekIndex, indent);
      var peekIndent := Indent(peekLine);
      if peekIndent <= indent {
        return;
      }
      nextIsList := StartsWith(peekStripped, "- ");
      return;
    }
  }
}
