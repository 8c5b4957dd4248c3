// Which struct tags survive printing and parsing, and what printing a parsed text gives.

module StructTagLaws {
  import opened Base
  import opened StructTags

  // ---- spelled texts -------------------------------------------------------

  /** One struct as a caller may spell it: the address need not be padded, and a nested struct may
      be surrounded by spaces. */
  datatype Item = Item(before: string, addr: string, mod: string, name: string, after: string) {
    function Text(): string { before + HeadText(addr, mod, name) + after }

    predicate Good() {
      AllSpace(before) && AllSpace(after) && Plain(addr) && Plain(mod) && Plain(name) && ParseAddress(addr).Some?
    }

    function Tag(params: seq<TypeTag>): TypeTag
      requires Good()
    {
      Struct(ParseAddress(addr).value, mod, name, params)
    }

    /** The item with its address padded and no spaces around it. */
    function Padded(): Item
      requires Good()
    {
      Item("", PrintAddress(ParseAddress(addr).value), mod, name, "")
    }
  }

  predicate AllSpace(s: string) {
    forall i :: 0 <= i < |s| ==> IsSpace(s[i])
  }

  /** Free of the delimiters of the grammar. */
  predicate Plain(s: string) {
    forall i :: 0 <= i < |s| ==> s[i] != '<' && s[i] != ',' && s[i] != ':' && !IsSpace(s[i])
  }

  predicate AllGood(items: seq<Item>) {
    forall i :: 0 <= i < |items| ==> items[i].Good()
  }

  function Texts(items: seq<Item>): (ts: seq<string>)
    ensures |ts| == |items| && forall i :: 0 <= i < |items| ==> ts[i] == items[i].Text()
  {
    if items == [] then [] else [items[0].Text()] + Texts(items[1..])
  }

  /** Every head and its opening bracket. */
  function Opened(heads: seq<Item>): string {
    if heads == [] then "" else heads[0].Text() + "<" + Opened(heads[1..])
  }

  function Closers(n: nat): (s: string)
    ensures |s| == n
  {
    seq(n, _ => '>')
  }

  /** Heads nested in each other, with a comma list of leaves in the innermost brackets. */
  function Write(heads: seq<Item>, leaves: seq<Item>): string {
    Opened(heads) + Join(Texts(leaves)) + Closers(|heads|)
  }

  function LeafTags(leaves: seq<Item>): (ts: seq<TypeTag>)
    requires AllGood(leaves)
    ensures |ts| == |leaves|
  {
    if leaves == [] then [] else [leaves[0].Tag([])] + LeafTags(leaves[1..])
  }

  function Nested(heads: seq<Item>, leaves: seq<Item>): seq<TypeTag>
    requires AllGood(heads) && AllGood(leaves)
  {
    if heads == [] then LeafTags(leaves) else [heads[0].Tag(Nested(heads[1..], leaves))]
  }

  // ---- splitting -----------------------------------------------------------

  lemma {:induction false} SplitFree(s: string, c: char)
    requires c !in s
    ensures Split(s, c) == [s]
  {
    if s != "" {
      assert s[0] in s && s[0] != c;
      SplitFree(s[1..], c);
      assert [s[0]] + s[1..] == s;
    }
  }

  lemma {:induction false} SplitAt(a: string, c: char, rest: string)
    requires c !in a
    ensures Split(a + [c] + rest, c) == [a] + Split(rest, c)
  {
    if a == "" {
      assert a + [c] + rest == [c] + rest;
    } else {
      assert a[0] in a && a[0] != c;
      SplitAt(a[1..], c, rest);
      assert (a + [c] + rest)[1..] == a[1..] + [c] + rest;
      assert [a[0]] + a[1..] == a;
    }
  }

  lemma {:induction false} SplitPathFree(s: string)
    requires Plain(s)
    ensures SplitPath(s) == [s]
  {
    if |s| >= 2 {
      SplitPathFree(s[1..]);
      assert [s[0]] + s[1..] == s;
    }
  }

  lemma {:induction false} SplitPathAt(a: string, rest: string)
    requires Plain(a)
    ensures SplitPath(a + "::" + rest) == [a] + SplitPath(rest)
  {
    if a == "" {
      assert a + "::" + rest == "::" + rest;
      assert ("::" + rest)[2..] == rest;
    } else {
      SplitPathAt(a[1..], rest);
      assert (a + "::" + rest)[1..] == a[1..] + "::" + rest;
      assert [a[0]] + a[1..] == a;
    }
  }

  lemma HeadSplits(addr: string, mod: string, name: string)
    requires Plain(addr) && Plain(mod) && Plain(name)
    ensures SplitPath(HeadText(addr, mod, name)) == [addr, mod, name]
  {
    assert HeadText(addr, mod, name) == addr + "::" + (mod + "::" + name);
    SplitPathAt(addr, mod + "::" + name);
    SplitPathAt(mod, name);
    SplitPathFree(name);
  }

  /** Spaces around a text with none at its ends are stripped. */
  lemma {:induction false} StripSpaces(before: string, s: string, after: string)
    requires AllSpace(before) && AllSpace(after)
    requires s != "" && !IsSpace(s[0]) && !IsSpace(s[|s| - 1])
    ensures Strip(before + s + after) == s
    decreases |before| + |after|
  {
    var t := before + s + after;
    if before != "" {
      assert t[0] == before[0] && t[1..] == before[1..] + s + after;
      StripSpaces(before[1..], s, after);
    } else if after != "" {
      assert t[0] == s[0] && t[|t| - 1] == after[|after| - 1];
      assert t[..|t| - 1] == before + s + after[..|after| - 1];
      StripSpaces(before, s, after[..|after| - 1]);
    } else {
      assert t == s;
    }
  }

  lemma ItemReduces(item: Item, params: seq<TypeTag>)
    requires item.Good()
    ensures Reducer(params, item.Text()) == Ok(item.Tag(params))
  {
    StripSpaces(item.before, HeadText(item.addr, item.mod, item.name), item.after);
    HeadSplits(item.addr, item.mod, item.name);
  }

  lemma ItemFree(item: Item)
    requires item.Good()
    ensures '<' !in item.Text() && ',' !in item.Text()
  {
  }

  // ---- parsing a spelled text ----------------------------------------------

  lemma {:induction false} OpenedSplits(heads: seq<Item>, tail: string)
    requires AllGood(heads) && '<' !in tail
    ensures Split(Opened(heads) + tail, '<') == Texts(heads) + [tail]
  {
    if heads == [] {
      SplitFree(tail, '<');
      assert Opened(heads) + tail == tail;
    } else {
      ItemFree(heads[0]);
      assert AllGood(heads[1..]);
      OpenedSplits(heads[1..], tail);
      var rest := Opened(heads[1..]) + tail;
      assert Opened(heads) + tail == heads[0].Text() + ['<'] + rest;
      SplitAt(heads[0].Text(), '<', rest);
    }
  }

  lemma {:induction false} JoinSplits(items: seq<Item>)
    requires AllGood(items) && items != []
    ensures Split(Join(Texts(items)), ',') == Texts(items)
    ensures '<' !in Join(Texts(items))
    ensures ',' in Join(Texts(items)) <==> |items| > 1
  {
    ItemFree(items[0]);
    if |items| == 1 {
      SplitFree(items[0].Text(), ',');
    } else {
      assert AllGood(items[1..]);
      JoinSplits(items[1..]);
      var rest := Join(Texts(items[1..]));
      assert Join(Texts(items)) == items[0].Text() + [','] + rest;
      SplitAt(items[0].Text(), ',', rest);
      assert (items[0].Text() + [','] + rest)[|items[0].Text()|] == ',';
    }
  }

  lemma {:induction false} LeavesReduce(leaves: seq<Item>)
    requires AllGood(leaves)
    ensures ReduceAll(Texts(leaves)) == Ok(LeafTags(leaves))
  {
    if leaves != [] {
      ItemReduces(leaves[0], []);
      assert AllGood(leaves[1..]);
      LeavesReduce(leaves[1..]);
    }
  }

  lemma InnermostLevel(leaves: seq<Item>)
    requires AllGood(leaves) && leaves != []
    ensures Level(Join(Texts(leaves)), []) == Ok(LeafTags(leaves))
  {
    JoinSplits(leaves);
    LeavesReduce(leaves);
    if |leaves| == 1 {
      ItemReduces(leaves[0], []);
      assert LeafTags(leaves) == [leaves[0].Tag([])];
    }
  }

  lemma {:induction false} LevelsNest(heads: seq<Item>, leaves: seq<Item>)
    requires AllGood(heads) && AllGood(leaves) && leaves != []
    ensures Lowest(Texts(heads) + [Join(Texts(leaves))]) == Ok(Nested(heads, leaves))
  {
    var parts := Texts(heads) + [Join(Texts(leaves))];
    if heads == [] {
      assert parts == [Join(Texts(leaves))] && parts[1..] == [];
      InnermostLevel(leaves);
    } else {
      assert AllGood(heads[1..]);
      assert parts[1..] == Texts(heads[1..]) + [Join(Texts(leaves))];
      LevelsNest(heads[1..], leaves);
      ItemFree(heads[0]);
      ItemReduces(heads[0], Nested(heads[1..], leaves));
    }
  }

  predicate Spelled(heads: seq<Item>, leaves: seq<Item>) {
    && heads != [] && leaves != [] && AllGood(heads) && AllGood(leaves)
    && heads[0].before == "" && heads[0].after == ""
  }

  lemma SpelledSplits(heads: seq<Item>, leaves: seq<Item>, inner: string)
    requires AllGood(heads) && AllGood(leaves) && leaves != [] && inner == Join(Texts(leaves))
    ensures Split(Write(heads, leaves), '<') == Texts(heads) + [inner + Closers(|heads|)]
  {
    JoinSplits(leaves);
    assert '<' !in Closers(|heads|);
    OpenedSplits(heads, inner + Closers(|heads|));
    assert Write(heads, leaves) == Opened(heads) + (inner + Closers(|heads|));
  }

  /** A text of nested heads around a comma list parses to the tag it spells. */
  lemma SpelledParses(heads: seq<Item>, leaves: seq<Item>)
    requires Spelled(heads, leaves)
    ensures Parse(Write(heads, leaves)) == Ok(heads[0].Tag(Nested(heads[1..], leaves)))
  {
    var inner, lowest := Join(Texts(leaves)), Nested(heads[1..], leaves);
    SpelledSplits(heads, leaves, inner);
    assert AllGood(heads[1..]);
    LevelsNest(heads[1..], leaves);
    MainHead(heads[0], lowest);
    assert Texts(heads)[1..] == Texts(heads[1..]);
  }

  lemma MainHead(h: Item, params: seq<TypeTag>)
    requires h.Good() && h.before == "" && h.after == ""
    ensures FromPath(SplitPath(h.Text()), params) == Ok(h.Tag(params))
  {
    assert h.Text() == HeadText(h.addr, h.mod, h.name);
    HeadSplits(h.addr, h.mod, h.name);
  }

  /** ... and so does a single struct. */
  lemma SingleParses(item: Item)
    requires item.Good() && item.before == "" && item.after == ""
    ensures Parse(item.Text()) == Ok(item.Tag([]))
  {
    assert item.Text() == HeadText(item.addr, item.mod, item.name);
    ItemFree(item);
    SplitFree(item.Text(), '<');
    HeadSplits(item.addr, item.mod, item.name);
  }

  /** Texts with a comma before each. */
  function Commas(texts: seq<string>): string {
    if texts == [] then "" else "," + texts[0] + Commas(texts[1..])
  }

  lemma {:induction false} JoinIsCommas(texts: seq<string>)
    requires texts != []
    ensures Join(texts) == texts[0] + Commas(texts[1..])
  {
    if |texts| == 1 {
      assert texts[1..] == [];
    } else {
      JoinIsCommas(texts[1..]);
      assert texts[0] + "," + (texts[1] + Commas(texts[2..])) == texts[0] + ("," + texts[1] + Commas(texts[2..]));
      assert texts[1..][1..] == texts[2..];
    }
  }

  lemma {:induction false} PrintAllIs(ts: seq<TypeTag>, texts: seq<string>)
    requires |texts| == |ts| && forall i :: 0 <= i < |ts| ==> Print(ts[i]) == Ok(texts[i])
    ensures PrintAll(ts) == Ok(texts)
  {
    if ts != [] {
      PrintAllIs(ts[1..], texts[1..]);
      assert [texts[0]] + texts[1..] == texts;
    }
  }

  /** A struct is printed as its padded address, module and name between double colons, and its parameters
      in angle brackets between commas. */
  lemma PrintedText(t: TypeTag, texts: seq<string>)
    requires t.Struct? && |texts| == |t.params| && forall i :: 0 <= i < |texts| ==> Print(t.params[i]) == Ok(texts[i])
    ensures var path := PrintAddress(t.address) + "::" + t.mod + "::" + t.name;
      Print(t) == Ok(if texts == [] then path else path + "<" + (texts[0] + Commas(texts[1..])) + ">")
  {
    if texts != [] {
      PrintAllIs(t.params, texts);
      JoinIsCommas(texts);
    }
  }

  // ---- printing a spelled tag ----------------------------------------------

  function PaddedAll(items: seq<Item>): (r: seq<Item>)
    requires AllGood(items)
    ensures |r| == |items|
  {
    if items == [] then [] else [items[0].Padded()] + PaddedAll(items[1..])
  }

  lemma LeafPrints(item: Item)
    requires item.Good()
    ensures Print(item.Tag([])) == Ok(item.Padded().Text())
  {
    var head := HeadText(PrintAddress(ParseAddress(item.addr).value), item.mod, item.name);
    assert "" + head + "" == head;
  }

  lemma {:induction false} LeavesPrint(leaves: seq<Item>)
    requires AllGood(leaves)
    ensures PrintAll(LeafTags(leaves)) == Ok(Texts(PaddedAll(leaves)))
  {
    if leaves != [] {
      LeafPrints(leaves[0]);
      assert AllGood(leaves[1..]);
      LeavesPrint(leaves[1..]);
    }
  }

  lemma {:induction false} NestedPrints(heads: seq<Item>, leaves: seq<Item>)
    requires AllGood(heads) && AllGood(leaves) && leaves != []
    ensures PrintAll(Nested(heads, leaves)).Ok? && Nested(heads, leaves) != []
    ensures Join(PrintAll(Nested(heads, leaves)).value) == Write(PaddedAll(heads), PaddedAll(leaves))
  {
    if heads == [] {
      LeavesPrint(leaves);
    } else {
      assert AllGood(heads[1..]);
      NestedPrints(heads[1..], leaves);
      HeadPrints(heads, leaves);
    }
  }

  lemma HeadPrints(heads: seq<Item>, leaves: seq<Item>)
    requires heads != [] && AllGood(heads) && AllGood(heads[1..]) && AllGood(leaves) && leaves != []
    requires PrintAll(Nested(heads[1..], leaves)).Ok? && Nested(heads[1..], leaves) != []
    requires Join(PrintAll(Nested(heads[1..], leaves)).value) == Write(PaddedAll(heads[1..]), PaddedAll(leaves))
    ensures Print(heads[0].Tag(Nested(heads[1..], leaves))) == Ok(Write(PaddedAll(heads), PaddedAll(leaves)))
  {
    var h, inner := heads[0].Padded(), Write(PaddedAll(heads[1..]), PaddedAll(leaves));
    assert h.Text() == HeadText(h.addr, h.mod, h.name);
    var ps := PaddedAll(heads);
    assert ps[0] == h && ps[1..] == PaddedAll(heads[1..]);
    WriteNested(ps, PaddedAll(leaves));
  }

  lemma WriteNested(heads: seq<Item>, leaves: seq<Item>)
    requires heads != []
    ensures Write(heads, leaves) == heads[0].Text() + "<" + Write(heads[1..], leaves) + ">"
  {
    assert Closers(|heads|) == Closers(|heads| - 1) + ">";
  }

  /** Printing what a spelled text parses to gives the same text with every address padded and the
      spaces gone. */
  lemma PrintedParsePads(heads: seq<Item>, leaves: seq<Item>)
    requires Spelled(heads, leaves)
    ensures Parse(Write(heads, leaves)).Ok?
    ensures Print(Parse(Write(heads, leaves)).value) == Ok(Write(PaddedAll(heads), PaddedAll(leaves)))
  {
    SpelledParses(heads, leaves);
    assert AllGood(heads[1..]);
    NestedPrints(heads[1..], leaves);
    HeadPrints(heads, leaves);
  }

  // ---- which tags survive --------------------------------------------------

  predicate AllLeaves(ts: seq<TypeTag>) {
    forall i :: 0 <= i < |ts| ==> ts[i].Struct? && ts[i].params == []
  }

  /** One type parameter per level, except that the innermost list may be any list of leaves. */
  predicate Linear(t: TypeTag) {
    t.Struct? && ((|t.params| == 1 && Linear(t.params[0])) || AllLeaves(t.params))
  }

  predicate PlainNames(t: TypeTag) {
    t.Struct? ==> Plain(t.mod) && Plain(t.name) && forall i :: 0 <= i < |t.params| ==> PlainNames(t.params[i])
  }

  lemma PlainAddress(a: Address)
    ensures Plain(PrintAddress(a))
  {
    HexlifyLower(a);
    forall i | 0 <= i < 66
      ensures var c := PrintAddress(a)[i]; c != '<' && c != ',' && c != ':' && !IsSpace(c)
    {
      if i >= 2 { assert Hexlify(a)[i - 2] in Hexlify(a); }
    }
  }

  function ItemOf(t: TypeTag): Item
    requires t.Struct?
  {
    Item("", PrintAddress(t.address), t.mod, t.name, "")
  }

  lemma ItemOfGood(t: TypeTag)
    requires t.Struct? && PlainNames(t)
    ensures ItemOf(t).Good() && ItemOf(t).Tag(t.params) == t && ItemOf(t).Padded() == ItemOf(t)
  {
    PlainAddress(t.address);
    ParsePrintAddress(t.address);
  }

  function ItemsOf(ts: seq<TypeTag>): (items: seq<Item>)
    requires AllLeaves(ts)
    ensures |items| == |ts|
  {
    if ts == [] then [] else [ItemOf(ts[0])] + ItemsOf(ts[1..])
  }

  function HeadsOf(t: TypeTag): (heads: seq<Item>)
    requires Linear(t)
    ensures heads != [] && heads[0] == ItemOf(t)
  {
    if AllLeaves(t.params) then [ItemOf(t)] else [ItemOf(t)] + HeadsOf(t.params[0])
  }

  function LeavesOf(t: TypeTag): seq<Item>
    requires Linear(t)
  {
    if AllLeaves(t.params) then ItemsOf(t.params) else LeavesOf(t.params[0])
  }

  /** Items in their own padded form. */
  predicate Padding(items: seq<Item>) {
    AllGood(items) && PaddedAll(items) == items
  }

  lemma {:induction false} ItemsOfGood(ts: seq<TypeTag>)
    requires AllLeaves(ts) && forall i :: 0 <= i < |ts| ==> PlainNames(ts[i])
    ensures Padding(ItemsOf(ts)) && LeafTags(ItemsOf(ts)) == ts
  {
    if ts != [] {
      ItemOfGood(ts[0]);
      ItemsOfGood(ts[1..]);
      assert ItemsOf(ts)[1..] == ItemsOf(ts[1..]);
      assert [ts[0]] + ts[1..] == ts;
    }
  }

  /** A linear tag is the one that its own heads and leaves spell. */
  lemma {:induction false} Respelled(t: TypeTag)
    requires Linear(t) && PlainNames(t) && t.params != []
    ensures LeavesOf(t) != [] && Padding(HeadsOf(t)) && Padding(LeavesOf(t))
    ensures Nested(HeadsOf(t), LeavesOf(t)) == [t]
    decreases t
  {
    ItemOfGood(t);
    if AllLeaves(t.params) {
      ItemsOfGood(t.params);
      assert [ItemOf(t)] + [] == [ItemOf(t)];
      assert HeadsOf(t)[1..] == [];
    } else {
      var p := t.params[0];
      Respelled(p);
      assert HeadsOf(t)[1..] == HeadsOf(p) && t.params == [p];
    }
  }

  lemma LinearRoundTrip(t: TypeTag)
    requires Linear(t) && PlainNames(t)
    ensures Print(t).Ok? && Parse(Print(t).value) == Ok(t)
  {
    ItemOfGood(t);
    if t.params == [] {
      LeafPrints(ItemOf(t));
      SingleParses(ItemOf(t));
    } else {
      var heads, leaves := HeadsOf(t), LeavesOf(t);
      Respelled(t);
      SpelledParses(heads, leaves);
      PrintedParsePads(heads, leaves);
      assert heads[0].Tag(Nested(heads[1..], leaves)) == t;
    }
  }

  lemma {:induction false} ReducedIsLinear(parts: seq<string>)
    requires Lowest(parts).Ok?
    ensures var ts := Lowest(parts).value; (|ts| == 1 && Linear(ts[0])) || AllLeaves(ts)
  {
    if parts != [] {
      ReducedIsLinear(parts[1..]);
      var below := Lowest(parts[1..]).value;
      if ',' in parts[0] {
        var ts := ReduceAll(Split(parts[0], ',')).value;
        forall i | 0 <= i < |ts| ensures ts[i].Struct? && ts[i].params == [] { assert ts[i] in ts; }
      }
    }
  }

  lemma ParsedIsLinear(s: string)
    requires Parse(s).Ok?
    ensures Linear(Parse(s).value)
  {
    var n := Count(s, '<');
    if n > 0 {
      var parts := Split(s, '<');
      ReducedIsLinear(parts[1..n] + [DropLast(parts[n], n)]);
    }
  }

  /** A printed tag parses back to itself exactly if it has one type parameter per level down to an
      innermost list of leaves. */
  lemma SurvivesExactly(t: TypeTag)
    requires PlainNames(t) && Print(t).Ok?
    ensures Parse(Print(t).value) == Ok(t) <==> Linear(t)
  {
    if Linear(t) {
      LinearRoundTrip(t);
    } else if Parse(Print(t).value) == Ok(t) {
      ParsedIsLinear(Print(t).value);
    }
  }

  // ---- a tag that does not survive -----------------------------------------

  lemma TwoOpenings(x: string, y: string, z: string)
    requires '<' !in x && '<' !in y && '<' !in z
    ensures Split(x + "<" + y + "<" + z, '<') == [x, y, z]
  {
    SplitFree(z, '<');
    SplitAt(y, '<', z);
    SplitAt(x, '<', y + ['<'] + z);
    assert x + "<" + y + "<" + z == x + ['<'] + (y + ['<'] + z);
  }

  lemma TwoLevelsParse(text: string, head: string, pair: string, inner: string, lowest: seq<TypeTag>)
    requires Split(text, '<') == [head, pair, inner + ">>"] && Lowest([pair, inner]) == Ok(lowest)
    ensures Parse(text) == FromPath(SplitPath(head), lowest)
  {
    assert Split(text, '<')[1..2] == [pair] && DropLast(inner + ">>", 2) == inner;
    assert [pair] + [inner] == [pair, inner];
  }

  lemma PairTexts(items: seq<Item>)
    requires |items| == 2
    ensures Join(Texts(items)) == items[0].Text() + "," + items[1].Text()
  {
    var ts := Texts(items);
    assert ts[1..] == [items[1].Text()];
  }

  /** Above a comma list the level below it is forgotten. */
  lemma CommaForgets(pair: seq<Item>, c: Item)
    requires |pair| == 2 && AllGood(pair) && c.Good()
    ensures Lowest([Join(Texts(pair)), c.Text()]) == Ok(LeafTags(pair))
    ensures '<' !in Join(Texts(pair))
  {
    JoinSplits(pair);
    LeavesReduce(pair);
    ItemFree(c);
    ItemReduces(c, []);
    LowestTwo(Join(Texts(pair)), c.Text(), c.Tag([]));
  }

  lemma LowestTwo(upper: string, lower: string, below: TypeTag)
    requires ',' !in lower && Reducer([], lower) == Ok(below)
    ensures Lowest([upper, lower]) == Level(upper, [below])
  {
    var parts := [upper, lower];
    var last := parts[1..];
    assert last == [lower] && last[1..] == [] && Lowest(last[1..]) == Ok([]);
    assert Lowest(last) == Ok([below]);
  }

  lemma ConsPrints(ts: seq<TypeTag>, first: string, rest: seq<string>)
    requires ts != [] && Print(ts[0]) == Ok(first) && PrintAll(ts[1..]) == Ok(rest)
    ensures PrintAll(ts) == Ok([first] + rest)
  {
  }

  lemma OnePrints(ts: seq<TypeTag>, text: string)
    requires |ts| == 1 && Print(ts[0]) == Ok(text)
    ensures PrintAll(ts) == Ok([text])
  {
    var rest := ts[1..];
    assert |rest| == 0 && PrintAll(rest) == Ok([]);
    ConsPrints(ts, text, []);
    assert [text] + [] == [text];
  }

  lemma BranchingPrints(t: TypeTag, u: TypeTag, v: TypeTag, w: TypeTag, head: string, a: string, b: string, c: string)
    requires t.Struct? && t.params == [u, v] && v.Struct? && v.params == [w]
    requires head == HeadText(PrintAddress(t.address), t.mod, t.name)
    requires b == HeadText(PrintAddress(v.address), v.mod, v.name)
    requires Print(u) == Ok(a) && Print(w) == Ok(c)
    ensures Print(t) == Ok(head + "<" + (a + "," + b) + "<" + (c + ">>"))
  {
    var sub := b + "<" + c + ">";
    OnePrints(v.params, c);
    assert Print(v) == Ok(sub);
    assert t.params[1..] == [v];
    OnePrints(t.params[1..], sub);
    ConsPrints(t.params, a, [sub]);
    assert [a] + [sub] == [a, sub] && [a, sub][1..] == [sub];
    assert Join([a, sub]) == a + "," + sub;
    assert Print(t) == Ok(head + "<" + (a + "," + sub) + ">");
    assert head + "<" + (a + "," + sub) + ">" == head + "<" + (a + "," + b) + "<" + (c + ">>");
  }

  lemma BranchingParses(t: Item, pair: seq<Item>, c: Item, text: string)
    requires t.Good() && |pair| == 2 && AllGood(pair) && c.Good() && t.before == "" && t.after == ""
    requires text == t.Text() + "<" + Join(Texts(pair)) + "<" + (c.Text() + ">>")
    ensures Parse(text) == Ok(t.Tag(LeafTags(pair)))
  {
    CommaForgets(pair, c);
    ItemFree(t);
    ItemFree(c);
    TwoOpenings(t.Text(), Join(Texts(pair)), c.Text() + ">>");
    TwoLevelsParse(text, t.Text(), Join(Texts(pair)), c.Text(), LeafTags(pair));
    MainHead(t, LeafTags(pair));
  }

  lemma BranchingText(t: Item, a: Item, b: Item, c: Item, tag: TypeTag, v: TypeTag)
    requires Neat(t) && Neat(a) && Neat(b) && Neat(c)
    requires v == b.Tag([c.Tag([])]) && tag == t.Tag([a.Tag([]), v])
    ensures Print(tag) == Ok(t.Text() + "<" + (a.Text() + "," + b.Text()) + "<" + (c.Text() + ">>"))
  {
    NeatText(t);
    NeatText(b);
    LeafPrints(a);
    LeafPrints(c);
    BranchingPrints(tag, a.Tag([]), v, c.Tag([]), t.Text(), a.Text(), b.Text(), c.Text());
  }

  predicate Neat(item: Item) {
    item.Good() && item.Padded() == item
  }

  /** A tag with two parameters, the second with one of its own: what is printed parses without an
      error, and the innermost parameter is gone. */
  lemma BranchingTagLosesParameter(t: Item, pair: seq<Item>, c: Item, tag: TypeTag, v: TypeTag)
    requires Neat(t) && |pair| == 2 && Neat(pair[0]) && Neat(pair[1]) && Neat(c)
    requires v == pair[1].Tag([c.Tag([])]) && tag == t.Tag([pair[0].Tag([]), v])
    ensures AllGood(pair) && !Linear(tag)
    ensures Print(tag).Ok? && Parse(Print(tag).value) == Ok(t.Tag(LeafTags(pair)))
  {
    assert |tag.params| == 2 && tag.params[1] == v && v.params != [];
    PairTexts(pair);
    BranchingText(t, pair[0], pair[1], c, tag, v);
    BranchingParses(t, pair, c, t.Text() + "<" + Join(Texts(pair)) + "<" + (c.Text() + ">>"));
  }

  lemma NeatText(item: Item)
    requires item.Good() && item.Padded() == item
    ensures item.Text() == HeadText(PrintAddress(ParseAddress(item.addr).value), item.mod, item.name)
  {
    assert item.before == "" && item.after == "";
    NothingAround(HeadText(item.addr, item.mod, item.name));
  }

  lemma NothingAround(s: string)
    ensures "" + s + "" == s
  {
  }
}
