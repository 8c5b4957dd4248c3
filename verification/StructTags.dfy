// Struct tags as text: the printer, and the parser that splits on the opening brackets.

module StructTags {
  import opened Base

  /** A type tag. */
  datatype TypeTag =
    | Bool | U8 | U16 | U32 | U64 | U128 | U256 | AccountAddress | Signer
    | Vector(elem: TypeTag)
    | Struct(address: Address, mod: string, name: string, params: seq<TypeTag>)

  // ---- printing ------------------------------------------------------------

  function HeadText(address: string, mod: string, name: string): string {
    address + "::" + mod + "::" + name
  }

  function Join(texts: seq<string>): string {
    if texts == [] then "" else if |texts| == 1 then texts[0] else texts[0] + "," + Join(texts[1..])
  }

  /** `to_type_str`. */
  function Print(t: TypeTag): Result<string>
    decreases t, 0
  {
    if !t.Struct? then Err("expected Struct type tag")
    else
      var head := HeadText(PrintAddress(t.address), t.mod, t.name);
      if t.params == [] then Ok(head)
      else
        var texts :- PrintAll(t.params);
        Ok(head + "<" + Join(texts) + ">")
  }

  function PrintAll(ts: seq<TypeTag>): (r: Result<seq<string>>)
    ensures r.Ok? ==> |r.value| == |ts|
    decreases ts, 1
  {
    if ts == [] then Ok([])
    else
      var first :- Print(ts[0]);
      var rest :- PrintAll(ts[1..]);
      Ok([first] + rest)
  }

  // ---- parsing -------------------------------------------------------------

  function Split(s: string, c: char): (parts: seq<string>)
    ensures |parts| == Count(s, c) + 1
  {
    if s == "" then [""]
    else
      var rest := Split(s[1..], c);
      if s[0] == c then [""] + rest else [[s[0]] + rest[0]] + rest[1..]
  }

  function Count(s: string, c: char): nat {
    if s == "" then 0 else (if s[0] == c then 1 else 0) + Count(s[1..], c)
  }

  /** `split("::")`. */
  function SplitPath(s: string): (parts: seq<string>)
    ensures parts != []
  {
    if |s| < 2 then [s]
    else if s[0] == ':' && s[1] == ':' then [""] + SplitPath(s[2..])
    else
      var rest := SplitPath(s[1..]);
      [[s[0]] + rest[0]] + rest[1..]
  }

  predicate IsSpace(c: char) {
    c == ' ' || c == '\t' || c == '\n' || c == '\r'
  }

  function Strip(s: string): string {
    if s == "" then ""
    else if IsSpace(s[0]) then Strip(s[1..])
    else if IsSpace(s[|s| - 1]) then Strip(s[..|s| - 1])
    else s
  }

  /** `s[:-n]`, for a positive `n`. */
  function DropLast(s: string, n: nat): string {
    if n >= |s| then "" else s[..|s| - n]
  }

  /** The struct named by the pieces of a path, over given type parameters. */
  function FromPath(path: seq<string>, params: seq<TypeTag>): (r: Result<TypeTag>)
    ensures r.Ok? ==> r.value.Struct? && r.value.params == params
  {
    if path == [] || ParseAddress(path[0]).None? then Err("not an address")
    else if |path| < 3 then Err("list index out of range")
    else Ok(Struct(ParseAddress(path[0]).value, path[1], path[2], params))
  }

  /** `_reducer`; no accumulated parameter is the empty list, and a single one a list of one. */
  function Reducer(accum: seq<TypeTag>, item: string): Result<TypeTag> {
    FromPath(SplitPath(Strip(item)), accum)
  }

  function ReduceAll(items: seq<string>): (r: Result<seq<TypeTag>>)
    ensures r.Ok? ==> |r.value| == |items|
    ensures r.Ok? ==> forall t :: t in r.value ==> t.Struct? && t.params == []
  {
    if items == [] then Ok([])
    else
      var first :- Reducer([], items[0]);
      var rest :- ReduceAll(items[1..]);
      Ok([first] + rest)
  }

  /** What one part, between two opening brackets, makes of the level below it. A part with a comma
      is a list of leaves, and forgets that level. */
  function Level(part: string, below: seq<TypeTag>): Result<seq<TypeTag>> {
    if ',' in part then ReduceAll(Split(part, ','))
    else
      var one :- Reducer(below, part);
      Ok([one])
  }

  /** The parts, last first. */
  function Lowest(parts: seq<string>): Result<seq<TypeTag>> {
    if parts == [] then Ok([])
    else
      var below :- Lowest(parts[1..]);
      Level(parts[0], below)
  }

  /** `from_type_str`. */
  function Parse(s: string): Result<TypeTag> {
    var n := Count(s, '<');
    if n == 0 then FromPath(SplitPath(s), [])
    else
      var parts := Split(s, '<');
      var lowest :- Lowest(parts[1..n] + [DropLast(parts[n], n)]);
      FromPath(SplitPath(parts[0]), lowest)
  }

  // ---- the loops -----------------------------------------------------------

  function Trailing(texts: seq<string>): string {
    if texts == [] then "" else texts[0] + "," + Trailing(texts[1..])
  }

  lemma {:induction false} TrailingJoin(texts: seq<string>)
    requires texts != []
    ensures Trailing(texts) == Join(texts) + ","
  {
    if |texts| > 1 { TrailingJoin(texts[1..]); }
  }

  lemma CutComma(strbuf: string, inner: string, texts: seq<string>)
    requires texts != [] && inner == "<" + Trailing(texts)
    ensures |inner| > 0 && strbuf + inner[..|inner| - 1] + ">" == strbuf + "<" + Join(texts) + ">"
  {
    TrailingJoin(texts);
    assert inner[..|inner| - 1] == "<" + Join(texts);
    assert strbuf + ("<" + Join(texts)) + ">" == strbuf + "<" + Join(texts) + ">";
  }

  lemma {:induction false} TrailingAppend(texts: seq<string>, t: string)
    ensures Trailing(texts + [t]) == Trailing(texts) + t + ","
  {
    if texts == [] {
      assert texts + [t] == [t];
    } else {
      assert (texts + [t])[1..] == texts[1..] + [t];
      TrailingAppend(texts[1..], t);
    }
  }

  lemma {:induction false} PrintedSoFar(ts: seq<TypeTag>, texts: seq<string>)
    requires |texts| <= |ts| && forall j :: 0 <= j < |texts| ==> Print(ts[j]) == Ok(texts[j])
    ensures |texts| == |ts| ==> PrintAll(ts) == Ok(texts)
    ensures |texts| < |ts| && Print(ts[|texts|]).Err? ==> PrintAll(ts) == Err(Print(ts[|texts|]).why)
    decreases |texts|
  {
    if texts != [] {
      PrintedSoFar(ts[1..], texts[1..]);
      assert [texts[0]] + texts[1..] == texts;
    }
  }

  /** `_make_str`: every parameter is followed by a comma, and the last comma is cut off. */
  method MakeStr(t: TypeTag) returns (r: Result<string>)
    ensures r == Print(t)
    decreases t, 0
  {
    if !t.Struct? { return Err("expected Struct type tag"); }
    var strbuf := HeadText(PrintAddress(t.address), t.mod, t.name);
    if t.params == [] { return Ok(strbuf); }
    var inner := AppendParams(t.params);
    if inner.Err? { return inner; }
    CutComma(strbuf, inner.value, PrintAll(t.params).value);
    return Ok(strbuf + inner.value[..|inner.value| - 1] + ">");
  }

  /** The loop over the parameters. */
  method AppendParams(params: seq<TypeTag>) returns (r: Result<string>)
    ensures r == match PrintAll(params) case Ok(texts) => Ok("<" + Trailing(texts)) case Err(e) => Err(e)
    decreases params, 1
  {
    var inner := "<";
    ghost var texts: seq<string> := [];
    for i := 0 to |params|
      invariant |texts| == i && forall j :: 0 <= j < i ==> Print(params[j]) == Ok(texts[j])
      invariant inner == "<" + Trailing(texts)
    {
      var text := MakeStr(params[i]);
      if text.Err? {
        PrintedSoFar(params, texts);
        return text;
      }
      TrailingAppend(texts, text.value);
      texts := texts + [text.value];
      inner := inner + text.value + ",";
    }
    PrintedSoFar(params, texts);
    return Ok(inner);
  }

  lemma {:induction false} LowestFails(parts: seq<string>, i: nat)
    requires i <= |parts| && Lowest(parts[i..]).Err?
    ensures Lowest(parts) == Lowest(parts[i..])
    decreases i
  {
    if i == 0 {
      assert parts[0..] == parts;
    } else {
      assert parts[1..][i - 1..] == parts[i..];
      LowestFails(parts[1..], i - 1);
    }
  }

  function LeafReducer(): string -> Result<TypeTag> {
    (item: string) => Reducer([], item)
  }

  lemma ReduceCons(items: seq<string>, tag: TypeTag)
    requires items != [] && LeafReducer()(items[0]) == Ok(tag)
    ensures ReduceAll(items) == match ReduceAll(items[1..]) case Ok(tags) => Ok([tag] + tags) case Err(e) => Err(e)
  {
  }

  lemma {:induction false} ReducedSoFar(items: seq<string>, tags: seq<TypeTag>)
    requires MappedSoFar(LeafReducer(), items, tags)
    ensures |tags| == |items| ==> ReduceAll(items) == Ok(tags)
    ensures |tags| < |items| && LeafReducer()(items[|tags|]).Err? ==>
      ReduceAll(items) == Err(LeafReducer()(items[|tags|]).why)
    decreases |tags|
  {
    if tags != [] {
      MappedTail(LeafReducer(), items, tags);
      ReduceCons(items, tags[0]);
      ReducedSoFar(items[1..], tags[1..]);
      assert [tags[0]] + tags[1..] == tags;
    }
  }

  /** The comprehension over a comma list. */
  method ReduceList(items: seq<string>) returns (r: Result<seq<TypeTag>>)
    ensures r == ReduceAll(items)
  {
    var tags: seq<TypeTag> := [];
    ghost var reduce := LeafReducer();
    for i := 0 to |items|
      invariant |tags| == i && MappedSoFar(reduce, items, tags)
    {
      var tag := Reducer([], items[i]);
      assert tag == reduce(items[i]);
      if tag.Err? {
        ReducedSoFar(items, tags);
        return Err(tag.why);
      }
      MappedOneMore(reduce, items, tags, tag.value);
      tags := tags + [tag.value];
    }
    ReducedSoFar(items, tags);
    return Ok(tags);
  }

  /** The reverse loop over the parts, which updates `lowest_level`. */
  method WalkLevels(parts: seq<string>) returns (r: Result<seq<TypeTag>>)
    ensures r == Lowest(parts)
  {
    var lowest: seq<TypeTag> := [];
    for i := |parts| downto 0
      invariant Lowest(parts[i..]) == Ok(lowest)
    {
      var part := parts[i];
      assert parts[i..][0] == part && parts[i..][1..] == parts[i + 1..];
      var level;
      if ',' in part {
        level := ReduceList(Split(part, ','));
      } else {
        var one := Reducer(lowest, part);
        level := if one.Ok? then Ok([one.value]) else Err(one.why);
      }
      if level.Err? {
        LowestFails(parts, i);
        return level;
      }
      lowest := level.value;
    }
    assert parts[0..] == parts;
    return Ok(lowest);
  }

  /** `from_type_str`. */
  method FromTypeStr(s: string) returns (r: Result<TypeTag>)
    ensures r == Parse(s)
  {
    var innerCount := Count(s, '<');
    if innerCount > 0 {
      var multi := Split(s, '<');
      multi := multi[innerCount := DropLast(multi[innerCount], innerCount)];
      assert multi[1..] == Split(s, '<')[1..innerCount] + [multi[innerCount]];
      var lowest := WalkLevels(multi[1..]);
      if lowest.Err? { return Err(lowest.why); }
      return FromPath(SplitPath(multi[0]), lowest.value);
    }
    return FromPath(SplitPath(s), []);
  }
}
