/** The property-list reader (cmd/agentctl/launchagent_control.go): a recursive descent over XML
    tokens, its grammar, and the documents it reads back. */
module PlistReader {
  import opened Outcomes
  import opened Texts

  // ---------------------------------------------------------------- tokens

  datatype Name = Name(space: string, local: string)

  datatype Attribute = Attribute(name: Name, value: string)

  datatype Token =
    | Start(name: Name, attributes: seq<Attribute>)
    | End(name: Name)
    | CharData(text: string)
    | Comment(text: string)
    | Directive(text: string)
    | ProcInst(text: string)

  predicate Blank(t: Token) {
    t.CharData? && BlankText(t.text)
  }

  /** What may stand between elements. */
  predicate Noise(t: Token) {
    Blank(t) || t.Comment?
  }

  /** What may stand before the document's root. */
  predicate Prologue(t: Token) {
    Noise(t) || t.Directive? || t.ProcInst?
  }

  /** Between elements only white space and comments are skipped, before the root directives and
      instructions too; no other text, and no element. */
  lemma SkippedTokens(t: Token)
    ensures Noise(t) <==> match t
      case Comment(_) => true
      case CharData(text) => forall c :: c in text ==> IsSpace(c)
      case _ => false
    ensures Prologue(t) <==> match t
      case Start(_, _) => false
      case End(_) => false
      case CharData(text) => forall c :: c in text ==> IsSpace(c)
      case _ => true
  {
  }

  predicate AllNoise(ts: seq<Token>) {
    forall t :: t in ts ==> Noise(t)
  }

  predicate AllPrologue(ts: seq<Token>) {
    forall t :: t in ts ==> Prologue(t)
  }

  const PLIST := Name("", "plist")
  const DICT := Name("", "dict")
  const ARRAY := Name("", "array")
  const KEY := Name("", "key")
  const STRING := Name("", "string")
  const VERSION := [Attribute(Name("", "version"), "1.0")]
  const TEXTS: set<string> := {"string", "integer", "real", "date", "data", "uid"}

  // ---------------------------------------------------------------- documents

  datatype Value =
    | Dict(entries: Entries)
    | Array(items: Items)
    | Flag(on: bool)
    | Text(kind: string, pieces: seq<string>)

  datatype Entries =
    | NoEntries(trailing: seq<Token>)
    | Entry(leading: seq<Token>, key: seq<string>, between: seq<Token>, value: Value, more: Entries)

  datatype Items =
    | NoItems(trailing: seq<Token>)
    | Item(leading: seq<Token>, value: Value, more: Items)

  datatype Document = Document(
    prologue: seq<Token>, beforeDict: seq<Token>, entries: Entries, afterDict: seq<Token>, epilogue: seq<Token>)

  function Concat(pieces: seq<string>): string {
    if pieces == [] then "" else pieces[0] + Concat(pieces[1..])
  }

  function NameOf(v: Value): Name {
    match v
    case Dict(_) => DICT
    case Array(_) => ARRAY
    case Flag(on) => Name("", if on then "true" else "false")
    case Text(kind, _) => Name("", kind)
  }

  function PrintText(pieces: seq<string>, name: Name): seq<Token> {
    if pieces == [] then [End(name)] else [CharData(pieces[0])] + PrintText(pieces[1..], name)
  }

  /** Everything of a value after its start tag. */
  function PrintBody(v: Value): seq<Token>
    decreases v, 0
  {
    match v
    case Dict(entries) => PrintEntries(entries)
    case Array(items) => PrintItems(items)
    case Flag(_) => [End(NameOf(v))]
    case Text(_, pieces) => PrintText(pieces, NameOf(v))
  }

  function PrintEntries(e: Entries): seq<Token>
    decreases e, 0
  {
    match e
    case NoEntries(trailing) => trailing + [End(DICT)]
    case Entry(leading, key, between, value, more) =>
      leading + ([Start(KEY, [])]
        + (PrintText(key, KEY) + (between + ([Start(NameOf(value), [])] + (PrintBody(value) + PrintEntries(more))))))
  }

  function PrintItems(i: Items): seq<Token>
    decreases i, 0
  {
    match i
    case NoItems(trailing) => trailing + [End(ARRAY)]
    case Item(leading, value, more) => leading + ([Start(NameOf(value), [])] + (PrintBody(value) + PrintItems(more)))
  }

  function Print(d: Document): seq<Token> {
    var inDict := PrintEntries(d.entries) + (d.afterDict + ([End(PLIST)] + d.epilogue));
    d.prologue + ([Start(PLIST, VERSION)] + (d.beforeDict + ([Start(DICT, [])] + inDict)))
  }

  /** What the extracted keys require of their values. */
  predicate SlotOk(key: string, v: Value) {
    && (key == "Label" ==> v.Text? && v.kind == "string")
    && (key == "ProgramArguments" ==> v.Array? && StringsOnly(v.items))
    && (key == "RunAtLoad" ==> v.Flag?)
  }

  predicate StringsOnly(i: Items) {
    i.Item? ==> i.value.Text? && i.value.kind == "string" && StringsOnly(i.more)
  }

  /** Keys are unique in every dict, and only noise stands between elements. */
  predicate ValueOk(v: Value) {
    match v
    case Dict(entries) => EntriesOk(entries, {}, false)
    case Array(items) => ItemsOk(items)
    case Flag(_) => true
    case Text(kind, _) => kind in TEXTS
  }

  predicate EntriesOk(e: Entries, seen: set<string>, extract: bool) {
    match e
    case NoEntries(trailing) => AllNoise(trailing)
    case Entry(leading, key, between, value, more) =>
      && AllNoise(leading) && AllNoise(between) && Concat(key) !in seen
      && (extract ==> SlotOk(Concat(key), value))
      && ValueOk(value) && EntriesOk(more, seen + {Concat(key)}, extract)
  }

  predicate ItemsOk(i: Items) {
    match i
    case NoItems(trailing) => AllNoise(trailing)
    case Item(leading, value, more) => AllNoise(leading) && ValueOk(value) && ItemsOk(more)
  }

  predicate DocumentOk(d: Document) {
    AllPrologue(d.prologue) && AllNoise(d.beforeDict) && EntriesOk(d.entries, {}, true) && AllNoise(d.afterDict)
      && AllNoise(d.epilogue)
  }

  // ---------------------------------------------------------------- what a document says

  datatype Inspection = Inspection(jobLabel: string, arguments: seq<string>, runAtLoad: bool, runAtLoadObserved: bool)

  function Lookup(e: Entries, key: string): Option<Value> {
    match e
    case NoEntries(_) => None
    case Entry(_, k, _, value, more) => if Concat(k) == key then Some(value) else Lookup(more, key)
  }

  function Strings(i: Items): seq<string> {
    match i
    case NoItems(_) => []
    case Item(_, value, more) => (if value.Text? then [Concat(value.pieces)] else []) + Strings(more)
  }

  /** The three settings as they stand in the top-level dict. */
  function Meaning(e: Entries): Inspection {
    var named, arguments, flag := Lookup(e, "Label"), Lookup(e, "ProgramArguments"), Lookup(e, "RunAtLoad");
    Inspection(
      if named.Some? && named.value.Text? then Concat(named.value.pieces) else "",
      if arguments.Some? && arguments.value.Array? then Strings(arguments.value.items) else [],
      flag == Some(Flag(true)),
      flag.Some?)
  }

  // ---------------------------------------------------------------- the grammar as a parser

  function NoiseLength(ts: seq<Token>): (n: nat)
    ensures n <= |ts| && AllNoise(ts[..n]) && (n < |ts| ==> !Noise(ts[n]))
  {
    if ts == [] || !Noise(ts[0]) then 0
    else
      var n := 1 + NoiseLength(ts[1..]);
      assert ts[..n] == [ts[0]] + ts[1..][..n - 1];
      n
  }

  function PrologueLength(ts: seq<Token>): (n: nat)
    ensures n <= |ts| && AllPrologue(ts[..n]) && (n < |ts| ==> !Prologue(ts[n]))
  {
    if ts == [] || !Prologue(ts[0]) then 0
    else
      var n := 1 + PrologueLength(ts[1..]);
      assert ts[..n] == [ts[0]] + ts[1..][..n - 1];
      n
  }

  function ParseText(ts: seq<Token>, name: Name): (r: Option<(seq<string>, seq<Token>)>)
    ensures r.Some? ==> |r.value.1| < |ts|
  {
    if ts == [] then None
    else if ts[0].CharData? then
      match ParseText(ts[1..], name)
      case None => None
      case Some((pieces, rest)) => Some(([ts[0].text] + pieces, rest))
    else if ts[0] == End(name) then Some(([], ts[1..]))
    else None
  }

  function ParseValue(name: Name, attributes: seq<Attribute>, ts: seq<Token>): (r: Option<(Value, seq<Token>)>)
    ensures r.Some? ==> |r.value.1| < |ts|
    decreases |ts|, 1
  {
    if name.space != "" || attributes != [] then None
    else if name.local == "dict" then
      match ParseEntries(ts, {}, false)
      case None => None
      case Some((entries, rest)) => Some((Dict(entries), rest))
    else if name.local == "array" then
      match ParseItems(ts, false)
      case None => None
      case Some((items, rest)) => Some((Array(items), rest))
    else if name.local == "true" || name.local == "false" then
      if ts != [] && ts[0] == End(name) then Some((Flag(name.local == "true"), ts[1..])) else None
    else if name.local in TEXTS then
      match ParseText(ts, name)
      case None => None
      case Some((pieces, rest)) => Some((Text(name.local, pieces), rest))
    else None
  }

  /** The value under a key; the extracted keys admit only values of their kind. */
  function ParseSlot(key: string, name: Name, attributes: seq<Attribute>, ts: seq<Token>,
    extract: bool): (r: Option<(Value, seq<Token>)>)
    ensures r.Some? ==> |r.value.1| < |ts|
    decreases |ts|, 2
  {
    if !extract then ParseValue(name, attributes, ts)
    else if key == "Label" then
      if name == STRING then ParseValue(name, attributes, ts) else None
    else if key == "ProgramArguments" then
      if name != ARRAY || attributes != [] then None
      else
        match ParseItems(ts, true)
        case None => None
        case Some((items, rest)) => Some((Array(items), rest))
    else if key == "RunAtLoad" then
      if name.local == "true" || name.local == "false" then ParseValue(name, attributes, ts) else None
    else ParseValue(name, attributes, ts)
  }

  function ParseEntries(ts: seq<Token>, seen: set<string>, extract: bool): (r: Option<(Entries, seq<Token>)>)
    ensures r.Some? ==> |r.value.1| < |ts|
    decreases |ts|, 0
  {
    var n := NoiseLength(ts);
    if n == |ts| then None
    else if ts[n] == End(DICT) then Some((NoEntries(ts[..n]), ts[n + 1..]))
    else if ts[n] != Start(KEY, []) then None
    else
      match ParseText(ts[n + 1..], KEY)
      case None => None
      case Some((key, afterKey)) =>
        var m := NoiseLength(afterKey);
        if Concat(key) in seen || m == |afterKey| || !afterKey[m].Start? then None
        else
          match ParseSlot(Concat(key), afterKey[m].name, afterKey[m].attributes, afterKey[m + 1..], extract)
          case None => None
          case Some((value, afterValue)) =>
            match ParseEntries(afterValue, seen + {Concat(key)}, extract)
            case None => None
            case Some((more, rest)) => Some((Entry(ts[..n], key, afterKey[..m], value, more), rest))
  }

  function ParseItems(ts: seq<Token>, stringsOnly: bool): (r: Option<(Items, seq<Token>)>)
    ensures r.Some? ==> |r.value.1| < |ts|
    decreases |ts|, 0
  {
    var n := NoiseLength(ts);
    if n == |ts| then None
    else if ts[n] == End(ARRAY) then Some((NoItems(ts[..n]), ts[n + 1..]))
    else if !ts[n].Start? || (stringsOnly && ts[n].name != STRING) then None
    else
      match ParseValue(ts[n].name, ts[n].attributes, ts[n + 1..])
      case None => None
      case Some((value, afterValue)) =>
        match ParseItems(afterValue, stringsOnly)
        case None => None
        case Some((more, rest)) => Some((Item(ts[..n], value, more), rest))
  }

  function ParseDocument(ts: seq<Token>): Option<Document> {
    var p := PrologueLength(ts);
    if p == |ts| || ts[p] != Start(PLIST, VERSION) then None
    else
      var inPlist := ts[p + 1..];
      var n := NoiseLength(inPlist);
      if n == |inPlist| || inPlist[n] != Start(DICT, []) then None
      else
        match ParseEntries(inPlist[n + 1..], {}, true)
        case None => None
        case Some((entries, afterDict)) =>
          var m := NoiseLength(afterDict);
          if m == |afterDict| || afterDict[m] != End(PLIST) then None
          else
            var epilogue := afterDict[m + 1..];
            if NoiseLength(epilogue) != |epilogue| then None
            else Some(Document(ts[..p], inPlist[..n], entries, afterDict[..m], epilogue))
  }

  // ---------------------------------------------------------------- reading back what is printed

  lemma Assoc(a: seq<Token>, b: seq<Token>, c: seq<Token>)
    ensures (a + b) + c == a + (b + c)
  {
  }

  lemma SplitAt(ts: seq<Token>, n: nat)
    requires n < |ts|
    ensures ts == ts[..n] + ([ts[n]] + ts[n + 1..])
  {
  }

  /** How a printed entry is laid out before whatever follows it. */
  lemma EntryLayout(e: Entries, rest: seq<Token>)
    requires e.Entry?
    ensures PrintEntries(e) + rest ==
      e.leading + ([Start(KEY, [])]
        + (PrintText(e.key, KEY)
          + (e.between + ([Start(NameOf(e.value), [])] + (PrintBody(e.value) + (PrintEntries(e.more) + rest))))))
  {
    var open := [Start(NameOf(e.value), [])];
    var p5 := PrintBody(e.value) + PrintEntries(e.more);
    var p4 := open + p5;
    var p3 := e.between + p4;
    var p2 := PrintText(e.key, KEY) + p3;
    var p1 := [Start(KEY, [])] + p2;
    Assoc(e.leading, p1, rest);
    Assoc([Start(KEY, [])], p2, rest);
    Assoc(PrintText(e.key, KEY), p3, rest);
    Assoc(e.between, p4, rest);
    Assoc(open, p5, rest);
    Assoc(PrintBody(e.value), PrintEntries(e.more), rest);
  }

  lemma ItemLayout(i: Items, rest: seq<Token>)
    requires i.Item?
    ensures PrintItems(i) + rest == i.leading
      + ([Start(NameOf(i.value), [])] + (PrintBody(i.value) + (PrintItems(i.more) + rest)))
  {
    var open := [Start(NameOf(i.value), [])];
    var p := PrintBody(i.value) + PrintItems(i.more);
    Assoc(i.leading, open + p, rest);
    Assoc(open, p, rest);
    Assoc(PrintBody(i.value), PrintItems(i.more), rest);
  }

  lemma {:induction false} NoisePrefix(noise: seq<Token>, t: Token, rest: seq<Token>)
    requires AllNoise(noise) && !Noise(t)
    ensures NoiseLength(noise + ([t] + rest)) == |noise|
    ensures (noise + ([t] + rest))[..|noise|] == noise && (noise + ([t] + rest))[|noise|] == t
    ensures (noise + ([t] + rest))[|noise| + 1..] == rest
  {
    var ts := noise + ([t] + rest);
    if noise != [] {
      NoisePrefix(noise[1..], t, rest);
      assert ts[1..] == noise[1..] + ([t] + rest);
    }
  }

  lemma {:induction false} ProloguePrefix(noise: seq<Token>, t: Token, rest: seq<Token>)
    requires AllPrologue(noise) && !Prologue(t)
    ensures PrologueLength(noise + ([t] + rest)) == |noise|
    ensures (noise + ([t] + rest))[..|noise|] == noise && (noise + ([t] + rest))[|noise|] == t
    ensures (noise + ([t] + rest))[|noise| + 1..] == rest
  {
    var ts := noise + ([t] + rest);
    if noise != [] {
      ProloguePrefix(noise[1..], t, rest);
      assert ts[1..] == noise[1..] + ([t] + rest);
    }
  }

  lemma {:induction false} TextReadsBack(pieces: seq<string>, name: Name, rest: seq<Token>)
    ensures ParseText(PrintText(pieces, name) + rest, name) == Some((pieces, rest))
  {
    var ts := PrintText(pieces, name) + rest;
    if pieces == [] {
      assert ts[1..] == rest;
    } else {
      TextReadsBack(pieces[1..], name, rest);
      assert pieces == [pieces[0]] + pieces[1..];
      assert ts[1..] == PrintText(pieces[1..], name) + rest;
    }
  }

  lemma {:induction false} ValueReadsBack(v: Value, rest: seq<Token>)
    requires ValueOk(v)
    ensures ParseValue(NameOf(v), [], PrintBody(v) + rest) == Some((v, rest))
    decreases v, 0
  {
    match v
    case Dict(entries) => EntriesReadBack(entries, {}, false, rest);
    case Array(items) => ItemsReadBack(items, false, rest);
    case Flag(on) =>
    case Text(kind, pieces) => TextReadsBack(pieces, NameOf(v), rest);
  }

  lemma {:induction false} ItemsReadBack(i: Items, stringsOnly: bool, rest: seq<Token>)
    requires ItemsOk(i) && (stringsOnly ==> StringsOnly(i))
    ensures ParseItems(PrintItems(i) + rest, stringsOnly) == Some((i, rest))
    decreases i, 0
  {
    match i
    case NoItems(trailing) =>
      assert PrintItems(i) + rest == trailing + ([End(ARRAY)] + rest);
      NoisePrefix(trailing, End(ARRAY), rest);
    case Item(leading, value, more) =>
      var after := PrintItems(more) + rest;
      var open := Start(NameOf(value), []);
      ItemLayout(i, rest);
      NoisePrefix(leading, open, PrintBody(value) + after);
      ValueReadsBack(value, after);
      ItemsReadBack(more, stringsOnly, rest);
  }

  lemma {:induction false} SlotReadsBack(key: string, v: Value, extract: bool, rest: seq<Token>)
    requires ValueOk(v) && (extract ==> SlotOk(key, v))
    ensures ParseSlot(key, NameOf(v), [], PrintBody(v) + rest, extract) == Some((v, rest))
    decreases v, 1
  {
    ValueReadsBack(v, rest);
    if extract && key == "ProgramArguments" {
      ItemsReadBack(v.items, true, rest);
    }
  }

  lemma {:induction false} EntriesReadBack(e: Entries, seen: set<string>, extract: bool, rest: seq<Token>)
    requires EntriesOk(e, seen, extract)
    ensures ParseEntries(PrintEntries(e) + rest, seen, extract) == Some((e, rest))
    decreases e, 0
  {
    hide NoiseLength, AllNoise, ParseValue, PrintBody, ParseText, PrintText, ParseSlot, NameOf;
    match e
    case NoEntries(trailing) =>
      assert PrintEntries(e) + rest == trailing + ([End(DICT)] + rest);
      NoisePrefix(trailing, End(DICT), rest);
    case Entry(leading, key, between, value, more) =>
      var after := PrintEntries(more) + rest;
      var open := Start(NameOf(value), []);
      var afterKey := between + ([open] + (PrintBody(value) + after));
      EntryLayout(e, rest);
      NoisePrefix(leading, Start(KEY, []), PrintText(key, KEY) + afterKey);
      TextReadsBack(key, KEY, afterKey);
      NoisePrefix(between, open, PrintBody(value) + after);
      SlotReadsBack(Concat(key), value, extract, after);
      EntriesReadBack(more, seen + {Concat(key)}, extract, rest);
  }

  lemma {:induction false} OnlyNoise(ts: seq<Token>)
    ensures AllNoise(ts) <==> NoiseLength(ts) == |ts|
  {
    assert ts[..|ts|] == ts;
    var n := NoiseLength(ts);
    assert n < |ts| ==> ts[n] in ts;
  }

  /** Every well-formed document reads back as itself. */
  lemma DocumentReadsBack(d: Document)
    requires DocumentOk(d)
    ensures ParseDocument(Print(d)) == Some(d)
  {
    hide NoiseLength, PrologueLength, AllNoise, AllPrologue, ParseEntries, PrintEntries, EntriesOk, ParseValue,
      PrintBody, ValueOk;
    var afterEntries := d.afterDict + ([End(PLIST)] + d.epilogue);
    var inDict := PrintEntries(d.entries) + afterEntries;
    var inPlist := d.beforeDict + ([Start(DICT, [])] + inDict);
    ProloguePrefix(d.prologue, Start(PLIST, VERSION), inPlist);
    NoisePrefix(d.beforeDict, Start(DICT, []), inDict);
    EntriesReadBack(d.entries, {}, true, afterEntries);
    NoisePrefix(d.afterDict, End(PLIST), d.epilogue);
    OnlyNoise(d.epilogue);
  }

  // ---------------------------------------------------------------- only documents are accepted

  lemma {:induction false} TextIsPrinted(ts: seq<Token>, name: Name)
    ensures var r := ParseText(ts, name); r.Some? ==> ts == PrintText(r.value.0, name) + r.value.1
  {
    if ts != [] && ts[0].CharData? {
      TextIsPrinted(ts[1..], name);
      assert ts == [ts[0]] + ts[1..];
    } else if ts != [] {
      assert ts == [ts[0]] + ts[1..];
    }
  }

  lemma {:induction false} ValueIsPrinted(name: Name, attributes: seq<Attribute>, ts: seq<Token>)
    ensures var r := ParseValue(name, attributes, ts);
            r.Some? ==>
              && ValueOk(r.value.0) && name == NameOf(r.value.0) && attributes == []
              && ts == PrintBody(r.value.0) + r.value.1
    decreases |ts|, 1
  {
    if name.space == "" && attributes == [] {
      if name.local == "dict" {
        EntriesArePrinted(ts, {}, false);
      } else if name.local == "array" {
        ItemsArePrinted(ts, false);
      } else if name.local == "true" || name.local == "false" {
        assert ts != [] ==> ts == [ts[0]] + ts[1..];
      } else {
        TextIsPrinted(ts, name);
      }
    }
  }

  lemma {:induction false} ItemsArePrinted(ts: seq<Token>, stringsOnly: bool)
    ensures var r := ParseItems(ts, stringsOnly);
            r.Some? ==>
              ItemsOk(r.value.0) && (stringsOnly ==> StringsOnly(r.value.0)) && ts == PrintItems(r.value.0) + r.value.1
    decreases |ts|, 0
  {
    hide NoiseLength, AllNoise, Noise, ParseText, PrintText, ParseSlot, ParseValue, PrintBody, PrintEntries, ValueOk,
      EntriesOk, Concat;
    var n := NoiseLength(ts);
    if n < |ts| {
      SplitAt(ts, n);
      if ts[n].Start? {
        ValueIsPrinted(ts[n].name, ts[n].attributes, ts[n + 1..]);
        var value := ParseValue(ts[n].name, ts[n].attributes, ts[n + 1..]);
        if value.Some? {
          ItemsArePrinted(value.value.1, stringsOnly);
        }
      }
      var r := ParseItems(ts, stringsOnly);
      if r.Some? && r.value.0.Item? {
        ItemLayout(r.value.0, r.value.1);
      }
    }
  }

  lemma {:induction false} SlotIsPrinted(key: string, name: Name, attributes: seq<Attribute>, ts: seq<Token>,
    extract: bool)
    ensures var r := ParseSlot(key, name, attributes, ts, extract);
            r.Some? ==> ValueOk(r.value.0) && (extract ==> SlotOk(key, r.value.0))
                        && name == NameOf(r.value.0) && attributes == [] && ts == PrintBody(r.value.0) + r.value.1
    decreases |ts|, 2
  {
    ValueIsPrinted(name, attributes, ts);
    if extract && key == "ProgramArguments" {
      ItemsArePrinted(ts, true);
    }
  }

  lemma {:induction false} EntriesArePrinted(ts: seq<Token>, seen: set<string>, extract: bool)
    ensures var r := ParseEntries(ts, seen, extract);
            r.Some? ==> EntriesOk(r.value.0, seen, extract) && ts == PrintEntries(r.value.0) + r.value.1
    decreases |ts|, 0
  {
    hide NoiseLength, AllNoise, Noise, ParseText, PrintText, ParseSlot, ParseValue, PrintBody, PrintItems, NameOf,
      ValueOk, SlotOk, Concat;
    var n := NoiseLength(ts);
    if n < |ts| {
      SplitAt(ts, n);
      if ts[n] == Start(KEY, []) {
        TextIsPrinted(ts[n + 1..], KEY);
        var key := ParseText(ts[n + 1..], KEY);
        if key.Some? {
          var afterKey := key.value.1;
          var m := NoiseLength(afterKey);
          if m < |afterKey| && afterKey[m].Start? {
            SlotIsPrinted(Concat(key.value.0), afterKey[m].name, afterKey[m].attributes, afterKey[m + 1..], extract);
            var value := ParseSlot(Concat(key.value.0), afterKey[m].name, afterKey[m].attributes, afterKey[m + 1..],
              extract);
            if value.Some? {
              EntriesArePrinted(value.value.1, seen + {Concat(key.value.0)}, extract);
              SplitAt(afterKey, m);
            }
          }
        }
      }
      var r := ParseEntries(ts, seen, extract);
      if r.Some? && r.value.0.Entry? {
        EntryLayout(r.value.0, r.value.1);
      }
    }
  }

  /** Every accepted token stream is the printing of a well-formed document. */
  lemma AcceptedIsPrinted(ts: seq<Token>)
    ensures var d := ParseDocument(ts); d.Some? ==> DocumentOk(d.value) && Print(d.value) == ts
  {
    hide NoiseLength, PrologueLength, AllNoise, AllPrologue, ParseEntries, PrintEntries, EntriesOk, ParseValue,
      PrintBody, ValueOk;
    var parsed := ParseDocument(ts);
    if parsed.Some? {
      var d := parsed.value;
      var p := PrologueLength(ts);
      var inPlist := ts[p + 1..];
      var n := NoiseLength(inPlist);
      EntriesArePrinted(inPlist[n + 1..], {}, true);
      var afterDict := ParseEntries(inPlist[n + 1..], {}, true).value.1;
      var m := NoiseLength(afterDict);
      OnlyNoise(d.epilogue);
      SplitAt(ts, p);
      SplitAt(inPlist, n);
      SplitAt(afterDict, m);
    }
  }

  // ---------------------------------------------------------------- what the reader extracts

  const NOTHING := Inspection("", [], false, false)

  /** What one entry of the top-level dict adds. */
  function Put(i: Inspection, key: string, v: Value): Inspection {
    if key == "Label" && v.Text? then i.(jobLabel := Concat(v.pieces))
    else if key == "ProgramArguments" && v.Array? then i.(arguments := Strings(v.items))
    else if key == "RunAtLoad" then i.(runAtLoadObserved := true, runAtLoad := v == Flag(true))
    else i
  }

  function Collect(e: Entries, i: Inspection): Inspection {
    match e
    case NoEntries(_) => i
    case Entry(_, key, _, value, more) => Collect(more, Put(i, Concat(key), value))
  }

  lemma {:induction false} SeenIsAbsent(e: Entries, seen: set<string>, extract: bool, key: string)
    requires EntriesOk(e, seen, extract) && key in seen
    ensures Lookup(e, key).None?
  {
    if e.Entry? {
      SeenIsAbsent(e.more, seen + {Concat(e.key)}, extract, key);
    }
  }

  /** Reading entry by entry gives what the keys stand for, whatever their order. */
  lemma {:induction false} CollectMeans(e: Entries, seen: set<string>, i: Inspection)
    requires EntriesOk(e, seen, true)
    ensures var m, c := Meaning(e), Collect(e, i);
      && c.jobLabel == (if Lookup(e, "Label").Some? then m.jobLabel else i.jobLabel)
      && c.arguments == (if Lookup(e, "ProgramArguments").Some? then m.arguments else i.arguments)
      && c.runAtLoad == (if Lookup(e, "RunAtLoad").Some? then m.runAtLoad else i.runAtLoad)
      && c.runAtLoadObserved == (m.runAtLoadObserved || i.runAtLoadObserved)
  {
    if e.Entry? {
      var key := Concat(e.key);
      CollectMeans(e.more, seen + {key}, Put(i, key, e.value));
      SeenIsAbsent(e.more, seen + {key}, true, key);
    }
  }

  /** inspectLaunchAgentPlistData, as a function of the document. */
  function Inspect(ts: seq<Token>, clean: bool): Option<Inspection> {
    var d := ParseDocument(ts);
    if d.None? || !clean then None else Some(Collect(d.value.entries, NOTHING))
  }

  /** Some well-formed document prints as the tokens and says just this. */
  ghost predicate Written(ts: seq<Token>, i: Inspection) {
    exists d :: DocumentOk(d) && Print(d) == ts && Meaning(d.entries) == i
  }

  /** The reader accepts exactly the printings of well-formed documents, and reads them to what their
      top-level keys stand for. */
  lemma InspectsDocuments(ts: seq<Token>, i: Inspection)
    ensures Inspect(ts, true) == Some(i) <==> Written(ts, i)
    ensures Inspect(ts, false).None?
  {
    hide Print, ParseDocument;
    AcceptedIsPrinted(ts);
    var parsed := ParseDocument(ts);
    if parsed.Some? {
      CollectMeans(parsed.value.entries, {}, NOTHING);
      assert Collect(parsed.value.entries, NOTHING) == Meaning(parsed.value.entries);
    }
    forall d | DocumentOk(d) && Print(d) == ts ensures parsed == Some(d) {
      DocumentReadsBack(d);
    }
  }

  // ---------------------------------------------------------------- the decoder

  function Remaining<T>(r: Option<(T, seq<Token>)>): Option<seq<Token>> {
    if r.None? then None else Some(r.value.1)
  }

  function TextOutcome(ts: seq<Token>, name: Name, so: string): Option<(string, seq<Token>)> {
    var r := ParseText(ts, name);
    if r.None? then None else Some((so + Concat(r.value.0), r.value.1))
  }

  function StringsOutcome(ts: seq<Token>, so: seq<string>): Option<(seq<string>, seq<Token>)> {
    var r := ParseItems(ts, true);
    if r.None? then None else Some((so + Strings(r.value.0), r.value.1))
  }

  function DictOutcome(ts: seq<Token>, seen: set<string>, extract: bool, i: Inspection)
    : Option<(Inspection, seq<Token>)>
  {
    var r := ParseEntries(ts, seen, extract);
    if r.None? then None else Some((if extract then Collect(r.value.0, i) else i, r.value.1))
  }

  /** What stands inside the root element, and after it. */
  function ParseRoot(inPlist: seq<Token>): Option<Entries> {
    var n := NoiseLength(inPlist);
    if n == |inPlist| || inPlist[n] != Start(DICT, []) then None
    else
      match ParseEntries(inPlist[n + 1..], {}, true)
      case None => None
      case Some((entries, afterDict)) =>
        var m := NoiseLength(afterDict);
        if m == |afterDict| || afterDict[m] != End(PLIST) then None
        else if NoiseLength(afterDict[m + 1..]) != |afterDict[m + 1..]| then None
        else Some(entries)
  }

  lemma TextStep(ts: seq<Token>, name: Name, so: string)
    requires ts != [] && ts[0].CharData?
    ensures TextOutcome(ts, name, so) == TextOutcome(ts[1..], name, so + ts[0].text)
  {
    var r := ParseText(ts[1..], name);
    if r.Some? {
      var pieces := [ts[0].text] + r.value.0;
      assert pieces[1..] == r.value.0;
      assert so + (ts[0].text + Concat(r.value.0)) == (so + ts[0].text) + Concat(r.value.0);
    }
  }

  lemma TextStarts(ts: seq<Token>, name: Name)
    ensures var r := ParseText(ts, name);
            TextOutcome(ts, name, "") == if r.None? then None else Some((Concat(r.value.0), r.value.1))
  {
    var r := ParseText(ts, name);
    assert r.Some? ==> "" + Concat(r.value.0) == Concat(r.value.0);
  }

  lemma TextEnds(ts: seq<Token>, name: Name, so: string)
    requires ts != [] && ts[0].End?
    ensures TextOutcome(ts, name, so) == if ts[0] == End(name) then Some((so, ts[1..])) else None
  {
    assert so + "" == so;
  }

  lemma StringsStart(ts: seq<Token>)
    ensures var r := ParseItems(ts, true);
            StringsOutcome(ts, []) == if r.None? then None else Some((Strings(r.value.0), r.value.1))
  {
    hide ParseItems;
    var r := ParseItems(ts, true);
    assert r.Some? ==> [] + Strings(r.value.0) == Strings(r.value.0);
  }

  lemma StringsEnd(ts: seq<Token>, so: seq<string>)
    requires var n := NoiseLength(ts); n < |ts| && ts[n].End?
    ensures var n := NoiseLength(ts);
            StringsOutcome(ts, so) == if ts[n] == End(ARRAY) then Some((so, ts[n + 1..])) else None
  {
    hide NoiseLength, AllNoise;
    assert so + [] == so;
  }

  lemma StringsRefuse(ts: seq<Token>, so: seq<string>)
    requires var n := NoiseLength(ts); n < |ts| && !ts[n].End? && ts[n] != Start(STRING, [])
    ensures StringsOutcome(ts, so).None?
  {
    hide NoiseLength, AllNoise, ParseText;
    var t := ts[NoiseLength(ts)];
    if t.Start? && t.name == STRING {
      assert t.attributes != [];
      assert ParseValue(t.name, t.attributes, ts[NoiseLength(ts) + 1..]).None?;
    }
  }

  lemma StringsStep(ts: seq<Token>, so: seq<string>)
    requires var n := NoiseLength(ts); n < |ts| && ts[n] == Start(STRING, [])
    ensures var n := NoiseLength(ts); var text := ParseText(ts[n + 1..], STRING);
            StringsOutcome(ts, so) == if text.None? then None
              else StringsOutcome(text.value.1, so + [Concat(text.value.0)])
  {
    hide NoiseLength, AllNoise, ParseText, Concat;
    var n := NoiseLength(ts);
    var text := ParseText(ts[n + 1..], STRING);
    assert ParseValue(STRING, [], ts[n + 1..]) == if text.None? then None
      else Some((Text("string", text.value.0), text.value.1));
    if text.Some? {
      StringsJoin(ts, so, Text("string", text.value.0), text.value.1);
    }
  }

  lemma StringsJoin(ts: seq<Token>, so: seq<string>, value: Value, after: seq<Token>)
    requires NoiseLength(ts) < |ts| && ts[NoiseLength(ts)] == Start(STRING, [])
    requires ParseValue(STRING, [], ts[NoiseLength(ts) + 1..]) == Some((value, after))
    requires value.Text?
    ensures StringsOutcome(ts, so) == StringsOutcome(after, so + [Concat(value.pieces)])
  {
    hide NoiseLength, AllNoise, ParseText, ParseValue, Concat;
    var more := ParseItems(after, true);
    if more.Some? {
      var rest := Strings(more.value.0);
      assert so + ([Concat(value.pieces)] + rest) == (so + [Concat(value.pieces)]) + rest;
    }
  }

  lemma InspectsRoot(ts: seq<Token>, clean: bool)
    ensures var p := PrologueLength(ts);
            Inspect(ts, clean) ==
              if p == |ts| || ts[p] != Start(PLIST, VERSION) || ParseRoot(ts[p + 1..]).None? || !clean then None
              else Some(Collect(ParseRoot(ts[p + 1..]).value, NOTHING))
  {
    hide NoiseLength, AllNoise, PrologueLength, AllPrologue, ParseEntries, Collect;
  }

  class Decoder {
    const tokens: seq<Token>
    /** The text ends where the tokens do, not in a syntax error. */
    const clean: bool
    var position: nat

    predicate Valid()
      reads this
    {
      position <= |tokens|
    }

    function Rest(): seq<Token>
      requires Valid()
      reads this
    {
      tokens[position..]
    }

    constructor (tokens: seq<Token>, clean: bool)
      ensures Valid() && this.tokens == tokens && this.clean == clean && Rest() == tokens
    {
      this.tokens, this.clean, position := tokens, clean, 0;
    }

    /** None at the end of the text. */
    method Token() returns (t: Option<Token>)
      requires Valid()
      modifies this`position
      ensures Valid() && position >= old(position)
      ensures old(Rest()) == [] ==> t.None? && Rest() == []
      ensures old(Rest()) != [] ==>
        t == Some(old(Rest())[0]) && Rest() == old(Rest())[1..] && position == old(position) + 1
    {
      if position == |tokens| {
        return None;
      }
      position := position + 1;
      return Some(tokens[position - 1]);
    }

    method NextDocumentToken() returns (t: Option<Token>)
      requires Valid()
      modifies this`position
      ensures Valid()
      ensures var ts := old(Rest()); var n := PrologueLength(ts);
              if n == |ts| then t.None? && Rest() == [] else t == Some(ts[n]) && Rest() == ts[n + 1..]
    {
      while true
        invariant Valid() && position >= old(position)
        invariant Rest() == old(Rest())[position - old(position)..]
        invariant PrologueLength(old(Rest())) == position - old(position) + PrologueLength(Rest())
        decreases |tokens| - position
      {
        t := Token();
        if t.None? || !Prologue(t.value) {
          return;
        }
      }
    }

    method NextContentToken() returns (t: Option<Token>)
      requires Valid()
      modifies this`position
      ensures Valid() && position >= old(position)
      ensures var ts := old(Rest()); var n := NoiseLength(ts);
              if n == |ts| then t.None? && Rest() == []
              else t == Some(ts[n]) && Rest() == ts[n + 1..] && position == old(position) + n + 1
    {
      while true
        invariant Valid() && position >= old(position)
        invariant Rest() == old(Rest())[position - old(position)..]
        invariant NoiseLength(old(Rest())) == position - old(position) + NoiseLength(Rest())
        decreases |tokens| - position
      {
        t := Token();
        if t.None? || !Noise(t.value) {
          return;
        }
      }
    }

    predicate ValidElement(start: Token, local: string) {
      start == Start(Name("", local), [])
    }

    method DecodeTextElement(start: Token, local: string) returns (r: Option<string>)
      requires Valid() && start.Start?
      modifies this`position
      ensures Valid() && position >= old(position)
      ensures var o := ParseText(old(Rest()), start.name);
              r == (if !ValidElement(start, local) || o.None? then None else Some(Concat(o.value.0)))
              && (r.Some? ==> Rest() == o.value.1)
    {
      hide Concat;
      if !ValidElement(start, local) {
        return None;
      }
      TextStarts(Rest(), start.name);
      var value := "";
      while true
        invariant Valid() && position >= old(position)
        invariant TextOutcome(Rest(), start.name, value) == TextOutcome(old(Rest()), start.name, "")
        decreases |tokens| - position
      {
        ghost var ts := Rest();
        var t := Token();
        match t
        case Some(CharData(text)) =>
          TextStep(ts, start.name, value);
          value := value + text;
        case Some(End(name)) =>
          TextEnds(ts, start.name, value);
          return if name == start.name then Some(value) else None;
        case _ =>
          return None;
      }
    }

    method ConsumeEmptyValue(start: Token) returns (ok: bool)
      requires Valid() && start.Start?
      modifies this`position
      ensures Valid() && position >= old(position)
      ensures ok <==> old(Rest()) != [] && old(Rest())[0] == End(start.name)
      ensures ok ==> Rest() == old(Rest())[1..]
    {
      var t := Token();
      return t == Some(End(start.name));
    }

    method DecodeStringArray(start: Token) returns (r: Option<seq<string>>)
      requires Valid() && start == Start(ARRAY, [])
      modifies this`position
      ensures Valid() && position >= old(position)
      ensures var o := ParseItems(old(Rest()), true);
              r == (if o.None? then None else Some(Strings(o.value.0))) && (r.Some? ==> Rest() == o.value.1)
    {
      hide NoiseLength, AllNoise, Noise, ParseText, ParseValue, Concat, Strings;
      var values: seq<string> := [];
      StringsStart(Rest());
      while true
        invariant Valid() && position >= old(position)
        invariant StringsOutcome(Rest(), values) == StringsOutcome(old(Rest()), [])
        decreases |tokens| - position
      {
        ghost var ts := Rest();
        var t := NextContentToken();
        if t.None? {
          return None;
        }
        if t.value.End? {
          StringsEnd(ts, values);
          return if t.value.name == start.name then Some(values) else None;
        }
        if !t.value.Start? || !ValidElement(t.value, "string") {
          StringsRefuse(ts, values);
          return None;
        }
        var value := DecodeTextElement(t.value, "string");
        StringsStep(ts, values);
        if value.None? {
          return None;
        }
        values := values + [value.value];
      }
    }

    method ConsumeItems(start: Token) returns (ok: bool)
      requires Valid() && start == Start(ARRAY, [])
      modifies this`position
      ensures Valid() && position >= old(position)
      ensures ok <==> ParseItems(old(Rest()), false).Some?
      ensures ok ==> Some(Rest()) == Remaining(ParseItems(old(Rest()), false))
      decreases |tokens| - position, 0
    {
      hide NoiseLength, AllNoise, Noise, ParseText, ParseValue;
      while true
        invariant Valid() && position >= old(position)
        invariant Remaining(ParseItems(Rest(), false)) == Remaining(ParseItems(old(Rest()), false))
        decreases |tokens| - position
      {
        var t := NextContentToken();
        if t.None? {
          return false;
        }
        if t.value.End? {
          return t.value.name == start.name;
        }
        if !t.value.Start? {
          return false;
        }
        var consumed := ConsumeValue(t.value);
        if !consumed {
          return false;
        }
      }
    }

    /** consumePlistValue. */
    method ConsumeValue(start: Token) returns (ok: bool)
      requires Valid() && start.Start?
      modifies this`position
      ensures Valid() && position >= old(position)
      ensures ok <==> ParseValue(start.name, start.attributes, old(Rest())).Some?
      ensures ok ==> Some(Rest()) == Remaining(ParseValue(start.name, start.attributes, old(Rest())))
      decreases |tokens| - position, 2
    {
      if start.name.space != "" || start.attributes != [] {
        return false;
      }
      match start.name.local {
        case "dict" =>
          var dict := DecodeDict(start, false);
          ok := dict.Some?;
        case "array" => ok := ConsumeItems(start);
        case "true" => ok := ConsumeEmptyValue(start);
        case "false" => ok := ConsumeEmptyValue(start);
        case _ =>
          if start.name.local !in TEXTS {
            return false;
          }
          var text := DecodeTextElement(start, start.name.local);
          ok := text.Some?;
      }
    }

    /** The value of one key of the top-level dict. */
    method DecodeSlot(key: string, start: Token, so: Inspection) returns (r: Option<Inspection>)
      requires Valid() && start.Start?
      modifies this`position
      ensures Valid() && position >= old(position)
      ensures var o := ParseSlot(key, start.name, start.attributes, old(Rest()), true);
              r == (if o.None? then None else Some(Put(so, key, o.value.0))) && (r.Some? ==> Rest() == o.value.1)
      decreases |tokens| - position, 3
    {
      match key {
        case "Label" =>
          var text := DecodeTextElement(start, "string");
          r := if text.None? then None else Some(so.(jobLabel := text.value));
        case "ProgramArguments" =>
          if !ValidElement(start, "array") {
            return None;
          }
          var values := DecodeStringArray(start);
          r := if values.None? then None else Some(so.(arguments := values.value));
        case "RunAtLoad" =>
          if start.name.space != "" || (start.name.local != "true" && start.name.local != "false")
            || start.attributes != [] {
            return None;
          }
          var ok := ConsumeEmptyValue(start);
          r := if !ok then None else Some(so.(runAtLoadObserved := true, runAtLoad := start.name.local == "true"));
        case _ =>
          var ok := ConsumeValue(start);
          r := if !ok then None else Some(so);
      }
    }

    /** The value under a key of any dict. */
    method DecodeValue(key: string, start: Token, extract: bool, so: Inspection) returns (r: Option<Inspection>)
      requires Valid() && start.Start?
      modifies this`position
      ensures Valid() && position >= old(position)
      ensures var o := ParseSlot(key, start.name, start.attributes, old(Rest()), extract);
              r == (if o.None? then None else Some(if extract then Put(so, key, o.value.0) else so))
                && (r.Some? ==> Rest() == o.value.1)
      decreases |tokens| - position, 4
    {
      if !extract {
        var ok := ConsumeValue(start);
        r := if ok then Some(so) else None;
      } else {
        r := DecodeSlot(key, start, so);
      }
    }

    /** One key and its value; `ts` is the text from before the key's start tag. */
    method DecodeEntry(ghost ts: seq<Token>, start: Token, seen: set<string>, extract: bool, so: Inspection)
      returns (r: Option<(string, Inspection)>)
      requires Valid() && NoiseLength(ts) < |ts| && start == ts[NoiseLength(ts)] && !start.End?
               && Rest() == ts[NoiseLength(ts) + 1..]
      modifies this`position
      ensures Valid() && position >= old(position)
      ensures r.None? ==> DictOutcome(ts, seen, extract, so).None?
      ensures r.Some? ==>
        DictOutcome(ts, seen, extract, so) == DictOutcome(Rest(), seen + {r.value.0}, extract, r.value.1)
      decreases |tokens| - position, 5
    {
      hide NoiseLength, AllNoise, Noise, ParseText, ParseValue, ParseSlot, Concat, Put;
      if !start.Start? || !ValidElement(start, "key") {
        return None;
      }
      var key := DecodeTextElement(start, "key");
      if key.None? || key.value in seen {
        return None;
      }
      var valueStart := NextContentToken();
      if valueStart.None? || !valueStart.value.Start? {
        return None;
      }
      var decoded := DecodeValue(key.value, valueStart.value, extract, so);
      if decoded.None? {
        return None;
      }
      return Some((key.value, decoded.value));
    }

    /** decodeLaunchAgentPlistDict. */
    method DecodeDict(start: Token, extract: bool) returns (r: Option<Inspection>)
      requires Valid() && start == Start(DICT, [])
      modifies this`position
      ensures Valid() && position >= old(position)
      ensures var o := DictOutcome(old(Rest()), {}, extract, NOTHING);
              r == (if o.None? then None else Some(o.value.0)) && (r.Some? ==> Rest() == o.value.1)
      decreases |tokens| - position, 1
    {
      hide NoiseLength, AllNoise, Noise, ParseText, ParseValue, ParseSlot, Concat, Put;
      var seen: set<string> := {};
      var inspection := NOTHING;
      while true
        invariant Valid() && position >= old(position)
        invariant DictOutcome(Rest(), seen, extract, inspection) == DictOutcome(old(Rest()), {}, extract, NOTHING)
        decreases |tokens| - position
      {
        ghost var ts := Rest();
        var t := NextContentToken();
        if t.None? {
          return None;
        }
        if t.value.End? {
          return if t.value.name == start.name then Some(inspection) else None;
        }
        var decoded := DecodeEntry(ts, t.value, seen, extract, inspection);
        if decoded.None? {
          return None;
        }
        seen, inspection := seen + {decoded.value.0}, decoded.value.1;
      }
    }

    /** From the root's start tag to the end of the text. */
    method DecodeRoot() returns (r: Option<Inspection>)
      requires Valid()
      modifies this`position
      ensures Valid()
      ensures var e := ParseRoot(old(Rest())); r == if e.None? then None else Some(Collect(e.value, NOTHING))
    {
      hide NoiseLength, AllNoise, ParseEntries, Collect;
      var dict := NextContentToken();
      if dict.None? || dict.value != Start(DICT, []) {
        return None;
      }
      r := DecodeDict(dict.value, true);
      if r.None? {
        return;
      }
      var end := NextContentToken();
      if end.None? || end.value != End(PLIST) {
        return None;
      }
      var extra := NextContentToken();
      if extra.Some? {
        return None;
      }
    }
  }

  /** inspectLaunchAgentPlistData. */
  method InspectLaunchAgentPlist(tokens: seq<Token>, clean: bool) returns (r: Option<Inspection>)
    ensures r == Inspect(tokens, clean)
  {
    hide Inspect, ParseRoot, NoiseLength, AllNoise, PrologueLength, AllPrologue, ParseEntries, Collect;
    InspectsRoot(tokens, clean);
    var decoder := new Decoder(tokens, clean);
    var root := decoder.NextDocumentToken();
    if root.None? || root.value != Start(PLIST, VERSION) {
      return None;
    }
    r := decoder.DecodeRoot();
    if !clean {
      return None;
    }
  }
}
