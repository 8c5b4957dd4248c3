// Which type tags survive being written and read again.

module TypeTagLaws {
  import opened Base
  import opened StructTags
  import opened StructTagLaws
  import opened TypeTags

  // ---- counting "vector" ---------------------------------------------------

  predicate Separates(c: char) {
    c == ':' || c == '<' || c == '>' || c == ','
  }

  lemma {:induction false} CountAround(a: string, c: char, b: string)
    requires Separates(c)
    ensures VectorCount(a + [c] + b) == VectorCount(a) + VectorCount(b)
    decreases |a|
  {
    var s := a + [c] + b;
    if a == "" {
      assert s[0] == c && s[1..] == b;
      assert |s| >= 6 ==> s[..6][0] == c;
    } else if |a| >= 6 && a[..6] == "vector" {
      assert s[..6] == a[..6] && s[6..] == a[6..] + [c] + b;
      CountAround(a[6..], c, b);
    } else {
      CountAround(a[1..], c, b);
      assert s[1..] == a[1..] + [c] + b;
      assert |a| >= 6 ==> s[..6] == a[..6];
      assert |a| < 6 <= |s| ==> s[..6][|a|] == c;
      assert |a| < 6 ==> VectorCount(a) == 0 == VectorCount(a[1..]);
      assert |s| < 6 ==> VectorCount(s) == 0 == VectorCount(s[1..]);
    }
  }

  lemma {:induction false} CountFree(s: string)
    requires 'v' !in s
    ensures VectorCount(s) == 0
  {
    if |s| >= 6 {
      assert s[..6][0] == s[0] && s[0] in s;
      CountFree(s[1..]);
    }
  }

  lemma CountHead(addr: string, mod: string, name: string)
    requires 'v' !in addr
    ensures VectorCount(HeadText(addr, mod, name)) == VectorCount(mod) + VectorCount(name)
  {
    CountFree(addr);
    assert HeadText(addr, mod, name) == addr + [':'] + ("" + [':'] + (mod + [':'] + ("" + [':'] + name)));
    CountAround("", ':', name);
    CountAround(mod, ':', "" + [':'] + name);
    CountAround("", ':', mod + [':'] + ("" + [':'] + name));
    CountAround(addr, ':', "" + [':'] + (mod + [':'] + ("" + [':'] + name)));
  }

  lemma CountBrackets(head: string, inner: string)
    ensures VectorCount(head + "<" + inner + ">") == VectorCount(head) + VectorCount(inner)
  {
    assert head + "<" + inner + ">" == head + ['<'] + (inner + ['>'] + "");
    CountAround(inner, '>', "");
    CountAround(head, '<', inner + ['>'] + "");
  }

  lemma AddressHasNoV(a: Address)
    ensures 'v' !in PrintAddress(a)
  {
    HexlifyLower(a);
  }

  /** No module and no struct in the tag has a name with "vector" in it. */
  predicate NoVectorNames(t: TypeTag) {
    t.Struct? ==>
      && VectorCount(t.mod) == 0 && VectorCount(t.name) == 0
      && forall i :: 0 <= i < |t.params| ==> NoVectorNames(t.params[i])
  }

  lemma {:induction false} PrintCounts(t: TypeTag)
    requires Print(t).Ok?
    ensures VectorCount(Print(t).value) == 0 <==> NoVectorNames(t)
    decreases t, 0
  {
    var head := HeadText(PrintAddress(t.address), t.mod, t.name);
    AddressHasNoV(t.address);
    CountHead(PrintAddress(t.address), t.mod, t.name);
    if t.params != [] {
      PrintAllCounts(t.params);
      CountBrackets(head, Join(PrintAll(t.params).value));
    }
  }

  lemma {:induction false} PrintAllCounts(ts: seq<TypeTag>)
    requires PrintAll(ts).Ok? && ts != []
    ensures VectorCount(Join(PrintAll(ts).value)) == 0 <==> forall i :: 0 <= i < |ts| ==> NoVectorNames(ts[i])
    decreases ts, 1
  {
    PrintCounts(ts[0]);
    var first, rest := Print(ts[0]).value, PrintAll(ts[1..]).value;
    assert PrintAll(ts).value == [first] + rest && ([first] + rest)[1..] == rest;
    if |ts| == 1 {
      assert rest == [];
    } else {
      PrintAllCounts(ts[1..]);
      CountAround(first, ',', Join(rest));
      assert Join([first] + rest) == first + [','] + Join(rest);
      forall i | 0 < i < |ts| ensures ts[i] == ts[1..][i - 1] {}
    }
  }

  // ---- no spaces -----------------------------------------------------------

  lemma {:induction false} NothingRemoved(s: string)
    requires ' ' !in s
    ensures NoSpaces(s) == s
  {
    if s != "" {
      assert s[0] in s;
      NothingRemoved(s[1..]);
      assert [s[0]] + s[1..] == s;
    }
  }

  lemma {:induction false} PrintHasNoSpace(t: TypeTag)
    requires Print(t).Ok? && PlainNames(t)
    ensures ' ' !in Print(t).value
    decreases t, 0
  {
    PlainAddress(t.address);
    if t.params != [] { PrintAllHasNoSpace(t.params); }
  }

  lemma {:induction false} PrintAllHasNoSpace(ts: seq<TypeTag>)
    requires PrintAll(ts).Ok? && ts != [] && forall i :: 0 <= i < |ts| ==> PlainNames(ts[i])
    ensures ' ' !in Join(PrintAll(ts).value)
    decreases ts, 1
  {
    PrintHasNoSpace(ts[0]);
    var first, rest := Print(ts[0]).value, PrintAll(ts[1..]).value;
    assert PrintAll(ts).value == [first] + rest && ([first] + rest)[1..] == rest;
    if |ts| > 1 {
      PrintAllHasNoSpace(ts[1..]);
      assert Join([first] + rest) == first + "," + Join(rest);
    }
  }

  // ---- structs -------------------------------------------------------------

  lemma PrintedPath(t: TypeTag)
    requires Print(t).Ok? && PlainNames(t)
    ensures |Print(t).value| > 66 && |SplitPath(Print(t).value)| > 2
  {
    var addr, text := PrintAddress(t.address), Print(t).value;
    var tail := text[|HeadText(addr, t.mod, "")|..];
    PlainAddress(t.address);
    assert text == addr + "::" + (t.mod + "::" + tail);
    SplitPathAt(addr, t.mod + "::" + tail);
    SplitPathAt(t.mod, tail);
  }

  lemma LongIsNoName(text: string)
    requires |text| > 66
    ensures ScalarTag(text) == None
  {
  }

  lemma ReadUncounted(text: string)
    requires NoSpaces(text) == text && |text| > 66 && |SplitPath(text)| > 2 && VectorCount(text) == 0
    ensures ReadTag(text) == Parse(text)
  {
    LongIsNoName(text);
  }

  lemma ReadCounted(text: string)
    requires NoSpaces(text) == text && |text| > 66 && |SplitPath(text)| > 2 && VectorCount(text) > 0
    ensures ReadTag(text).Ok? ==> ReadTag(text).value.Vector?
  {
    LongIsNoName(text);
  }

  lemma ReadStruct(t: TypeTag, text: string)
    requires Print(t) == Ok(text) && PlainNames(t)
    ensures NoVectorNames(t) ==> ReadTag(text) == Parse(text)
    ensures !NoVectorNames(t) && ReadTag(text).Ok? ==> ReadTag(text).value.Vector?
  {
    PrintHasNoSpace(t);
    NothingRemoved(text);
    PrintedPath(t);
    PrintCounts(t);
    if NoVectorNames(t) { ReadUncounted(text); } else { ReadCounted(text); }
  }

  // ---- the other tags ------------------------------------------------------

  /** Letters before v and digits, and no digit first. */
  predicate Word(s: string) {
    && s != "" && s[0] >= 'A'
    && forall i :: 0 <= i < |s| ==> '0' <= s[i] <= '9' || 'A' <= s[i] <= 'Z' || 'a' <= s[i] < 'v'
  }

  lemma ReadWord(s: string)
    requires Word(s)
    ensures ReadTag(s) == if ScalarTag(s).Some? then Ok(ScalarTag(s).value) else Err("not a recognized TypeTag")
  {
    NothingRemoved(s);
    CountFree(s);
    SplitPathOne(s);
  }

  lemma {:induction false} SplitPathOne(s: string)
    requires ':' !in s
    ensures SplitPath(s) == [s]
  {
    if |s| >= 2 {
      assert s[0] in s;
      SplitPathOne(s[1..]);
      assert [s[0]] + s[1..] == s;
    }
  }

  /** Integers of any width, and bool. */
  predicate Basic(t: TypeTag) {
    t.Bool? || t.U8? || t.U16? || t.U32? || t.U64? || t.U128? || t.U256?
  }

  lemma BasicName(t: TypeTag)
    requires Basic(t)
    ensures Word(EnumName(t)) && ScalarTag(EnumName(t)) == Some(t)
  {
  }

  lemma OtherName(t: TypeTag)
    requires !Basic(t)
    ensures Word(EnumName(t)) && ScalarTag(EnumName(t)) == None
  {
    assert EnumName(t)[0] in {'A', 'S', 'V'};
  }

  /** The name of a variant is read as a tag only for the basic ones. */
  lemma ReadName(t: TypeTag)
    ensures ReadTag(EnumName(t)) == if Basic(t) then Ok(t) else Err("not a recognized TypeTag")
  {
    if Basic(t) { BasicName(t); } else { OtherName(t); }
    ReadWord(EnumName(t));
  }

  // ---- the result ----------------------------------------------------------

  /** A basic tag; or a struct with one type parameter per level down to an innermost list of leaves,
      none of whose names contains "vector". */
  predicate Lasting(t: TypeTag) {
    Basic(t) || (t.Struct? && Linear(t) && NoVectorNames(t))
  }

  /** A type tag is read back as it was written exactly if it is basic, or a struct of that form. In
      particular no vector is. */
  lemma SurvivesExactly(t: TypeTag)
    requires PlainNames(t)
    ensures Survives(t) <==> Lasting(t)
  {
    match t
    case Struct(_, _, _, _) =>
      if Print(t).Ok? {
        ReadStruct(t, Print(t).value);
        StructTagLaws.SurvivesExactly(t);
      } else if Linear(t) {
        LinearRoundTrip(t);
      }
    case Vector(elem) => ReadName(elem);
    case _ => ReadName(t);
  }

  /** A vector of a basic type comes back as that type; any other vector does not come back. */
  lemma VectorComesBackAs(elem: TypeTag)
    ensures Returns(Vector(elem)) <==> Basic(elem)
    ensures Basic(elem) ==> Back(Vector(elem)) == elem
  {
    ReadName(elem);
  }

  // ---- other texts ---------------------------------------------------------

  predicate Named(s: string, t: TypeTag) {
    match t
    case Bool => s == "bool" || s == "Bool"
    case U8 => s == "u8" || s == "U8"
    case U16 => s == "u16" || s == "U16"
    case U32 => s == "u32" || s == "U32"
    case U64 => s == "u64" || s == "U64"
    case U128 => s == "u128" || s == "U128"
    case U256 => s == "u256" || s == "U256"
    case _ => false
  }

  /** What the tags other than structs are written as. */
  lemma NamesAreWritten(t: TypeTag, name: string)
    requires Named(name, t) && 'A' <= name[0] <= 'Z'
    ensures TagText(t) == Ok(name) && TagText(Vector(t)) == Ok(name)
  {
  }

  /** Of a vector only the kind of its elements is written. */
  lemma OtherNamesAreWritten(t: TypeTag)
    ensures TagText(AccountAddress) == TagText(Vector(AccountAddress)) == Ok("Address")
    ensures TagText(Signer) == TagText(Vector(Signer)) == Ok("Signer")
    ensures TagText(Vector(Vector(t))) == Ok("Vector")
    ensures t.Struct? ==> TagText(Vector(t)) == Ok("Struct")
  {
  }

  /** The integers and bool are read by either name. */
  lemma NamesAreRead(s: string, t: TypeTag)
    requires Named(s, t)
    ensures ReadTag(s) == Ok(t)
  {
    NamedScalar(s, t);
    NothingRemoved(s);
  }

  lemma NamedScalar(s: string, t: TypeTag)
    requires Named(s, t)
    ensures ScalarTag(s) == Some(t) && ' ' !in s
  {
  }

  lemma LongIsNoScalar(s: string)
    requires '<' in s || (s != "" && s[0] == '0')
    ensures ScalarTag(s) == None
  {
  }

  lemma ReadPrefixed(text: string)
    requires ':' !in text && ' ' !in text && Prefixed(text)
    ensures ReadTag(text) == Ok(AccountAddress)
  {
    NothingRemoved(text);
    SplitPathOne(text);
    LongIsNoScalar(text);
  }

  /** A prefixed text that is no path is an address, whatever follows the prefix. */
  lemma PrefixIsAddress(s: string, text: string)
    requires ':' !in s && ' ' !in s && (text == "0x" + s || text == "0X" + s)
    ensures ReadTag(text) == Ok(AccountAddress)
  {
    assert Prefixed(text);
    ReadPrefixed(text);
  }

  /** Spaces do not matter. */
  lemma SpacesDoNotMatter(a: string, b: string)
    ensures ReadTag(a + " " + b) == ReadTag(a + b)
  {
    SpaceRemoved(a, b);
  }

  lemma {:induction false} SpaceRemoved(a: string, b: string)
    ensures NoSpaces(a + " " + b) == NoSpaces(a + b)
  {
    if a == "" {
      assert (a + " " + b)[0] == ' ' && (a + " " + b)[1..] == b && a + b == b;
    } else {
      SpaceRemoved(a[1..], b);
      assert (a + " " + b)[1..] == a[1..] + " " + b && (a + b)[1..] == a[1..] + b;
    }
  }

  lemma {:induction false} LastOpenAt(pre: string, rest: string)
    requires '<' !in rest
    ensures AfterLastOpen(pre + "<" + rest) == |pre| + 1
  {
    var s := pre + "<" + rest;
    if rest != "" {
      LastOpenAt(pre, rest[..|rest| - 1]);
      assert s[..|s| - 1] == pre + "<" + rest[..|rest| - 1];
      assert s[|s| - 1] == rest[|rest| - 1];
    }
  }

  lemma {:induction false} FirstCloseAt(pre: string, rest: string)
    requires '>' !in pre
    ensures FirstClose(pre + ">" + rest) == Some(|pre|)
  {
    if pre != "" {
      FirstCloseAt(pre[1..], rest);
      assert (pre + ">" + rest)[1..] == pre[1..] + ">" + rest;
      assert (pre + ">" + rest)[0] == pre[0] && pre[0] in pre;
    }
  }

  /** `n` vectors around a tag. */
  function Nested(n: nat, t: TypeTag): TypeTag {
    if n == 0 then t else Vector(Nested(n - 1, t))
  }

  lemma {:induction false} NestedIsWrap(n: nat, t: TypeTag)
    ensures Wrap(n, t) == Nested(n, t)
  {
    if n > 0 { NestedIsWrap(n - 1, t); }
  }

  predicate NoBrackets(s: string) {
    '<' !in s && '>' !in s && ' ' !in s
  }

  lemma ReadBetween(pre: string, s: string, post: string, text: string)
    requires text == pre + "<" + s + ">" + post && NoBrackets(s) && '>' !in pre && '<' !in post
    ensures FirstClose(text) == Some(|pre| + 1 + |s|) && AfterLastOpen(text) == |pre| + 1
    ensures Between(text, |pre| + 1, |pre| + 1 + |s|) == s
  {
    assert text == pre + "<" + (s + ">" + post) == (pre + "<" + s) + ">" + post;
    LastOpenAt(pre, s + ">" + post);
    FirstCloseAt(pre + "<" + s, post);
  }

  /** Of a text with "vector" in it only the part between the innermost brackets is read, and wrapped as often
      as "vector" is found. */
  lemma InnermostIsRead(pre: string, s: string, post: string)
    requires NoBrackets(s) && '>' !in pre && ' ' !in pre && '<' !in post && ' ' !in post
    requires VectorCount(pre + "<" + s + ">" + post) > 0 && !Prefixed(pre + "<")
    ensures ReadTag(pre + "<" + s + ">" + post) ==
      if ReadTag(s).Ok? then Ok(Nested(VectorCount(pre + "<" + s + ">" + post), ReadTag(s).value)) else ReadTag(s)
  {
    var text := pre + "<" + s + ">" + post;
    ReadBetween(pre, s, post, text);
    assert text[|pre|] == '<' && '<' in text;
    assert (pre + "<")[0] == text[0] && |pre| > 0 ==> (pre + "<")[1] == text[1];
    ReadWrapped(text, s, VectorCount(text), |pre| + 1, |pre| + 1 + |s|);
  }

  lemma ReadWrapped(text: string, s: string, count: nat, from: nat, to: nat)
    requires ' ' !in text && '<' in text && !Prefixed(text) && count == VectorCount(text) > 0
    requires FirstClose(text) == Some(to) && AfterLastOpen(text) == from && Between(text, from, to) == s
    ensures ReadTag(text) == if ReadTag(s).Ok? then Ok(Nested(count, ReadTag(s).value)) else ReadTag(s)
  {
    NothingRemoved(text);
    LongIsNoScalar(text);
    if ReadTag(s).Ok? { NestedIsWrap(count, ReadTag(s).value); }
  }

  function Opens(n: nat): string {
    if n == 0 then "" else "vector<" + Opens(n - 1)
  }

  function Closes(n: nat): (s: string)
    ensures '<' !in s && ' ' !in s
  {
    if n == 0 then "" else ">" + Closes(n - 1)
  }

  lemma {:induction false} OpensHold(n: nat)
    ensures '>' !in Opens(n) && ' ' !in Opens(n)
  {
    if n > 0 {
      OpensHold(n - 1);
      assert '>' !in "vector<" && ' ' !in "vector<";
    }
  }

  lemma {:induction false} OpensCount(n: nat, rest: string)
    ensures VectorCount(Opens(n) + rest) == n + VectorCount(rest)
  {
    if n == 0 {
      assert Opens(0) + rest == rest;
    } else {
      OpensCount(n - 1, rest);
      assert Opens(n) + rest == "vector" + ['<'] + (Opens(n - 1) + rest);
      CountAround("vector", '<', Opens(n - 1) + rest);
      CountWord();
    }
  }

  lemma CountWord()
    ensures VectorCount("vector") == 1
  {
    assert "vector"[..6] == "vector" && "vector"[6..] == "";
  }

  lemma {:induction false} OpensEnd(n: nat)
    requires n > 0
    ensures Opens(n) == Opens(n - 1) + "vector<"
  {
    if n > 1 {
      OpensEnd(n - 1);
      assert "vector<" + (Opens(n - 2) + "vector<") == ("vector<" + Opens(n - 2)) + "vector<";
    }
  }

  lemma ClosesCount(s: string, closes: string)
    requires 'v' !in closes && (closes == "" || closes[0] == '>')
    ensures VectorCount(s + closes) == VectorCount(s)
  {
    if closes == "" {
      assert s + closes == s;
    } else {
      CountAround(s, '>', closes[1..]);
      assert s + closes == s + ['>'] + closes[1..];
      CountFree(closes[1..]);
    }
  }

  lemma {:induction false} ClosesFree(n: nat)
    ensures 'v' !in Closes(n)
  {
    if n > 0 { ClosesFree(n - 1); }
  }

  /** `vector<...>` nested `n` times around a text is read as `n` vectors around what the text is read as. */
  lemma VectorsAreRead(n: nat, s: string, text: string)
    requires n > 0 && NoBrackets(s) && VectorCount(s) == 0 && text == Opens(n) + s + Closes(n)
    ensures ReadTag(text) == if ReadTag(s).Ok? then Ok(Nested(n, ReadTag(s).value)) else ReadTag(s)
  {
    var pre, post := Opens(n - 1) + "vector", Closes(n - 1);
    ClosesFree(n);
    NestCount(n, s, Opens(n), Closes(n));
    NestSplit(n, s, text, pre, post);
    OpensHold(n - 1);
    StartsWithV(n - 1);
    InnermostIsRead(pre, s, post);
  }

  lemma NestCount(n: nat, s: string, opens: string, closes: string)
    requires VectorCount(s) == 0 && opens == Opens(n) && 'v' !in closes && (closes == "" || closes[0] == '>')
    ensures VectorCount(opens + s + closes) == n
  {
    OpensCount(n, s + closes);
    ClosesCount(s, closes);
    assert opens + s + closes == opens + (s + closes);
  }

  lemma NestSplit(n: nat, s: string, text: string, pre: string, post: string)
    requires n > 0 && text == Opens(n) + s + Closes(n) && pre == Opens(n - 1) + "vector" && post == Closes(n - 1)
    ensures text == pre + "<" + s + ">" + post
  {
    OpensEnd(n);
    assert Opens(n) == pre + "<";
    assert Closes(n) == ">" + post;
  }

  lemma StartsWithV(n: nat)
    ensures !Prefixed(Opens(n) + "vector" + "<")
  {
  }

  /** A vector of a generic struct is read as a vector of its innermost parameter. */
  lemma GenericElementIsLost(head: string, s: string, text: string)
    requires NoBrackets(head) && NoBrackets(s) && 'v' !in head && 'v' !in s
    requires text == "vector<" + head + "<" + s + ">>"
    ensures ReadTag(text) == if ReadTag(s).Ok? then Ok(Vector(ReadTag(s).value)) else ReadTag(s)
  {
    var pre, rest := "vector<" + head, head + "<" + s + ">>";
    assert text == pre + "<" + s + ">" + ">" && text == "vector" + ['<'] + rest;
    CountAround("vector", '<', rest);
    CountWord();
    CountFree(rest);
    InnermostIsRead(pre, s, ">");
    assert forall t: TypeTag :: Nested(1, t) == Vector(Nested(0, t));
  }
}
