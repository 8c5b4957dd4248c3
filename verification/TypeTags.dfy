// Type tags as text: what `type_tag_to_str` writes and `type_tag_from` reads.

module TypeTags {
  import opened Base
  import opened StructTags

  // ---- writing -------------------------------------------------------------

  /** The name of the enum's variant. */
  function EnumName(t: TypeTag): (s: string)
    ensures s != ""
  {
    match t
    case Bool => "Bool"
    case U8 => "U8"
    case U16 => "U16"
    case U32 => "U32"
    case U64 => "U64"
    case U128 => "U128"
    case U256 => "U256"
    case AccountAddress => "Address"
    case Signer => "Signer"
    case Vector(_) => "Vector"
    case Struct(_, _, _, _) => "Struct"
  }

  /** `type_tag_to_str`; of a vector only the kind of its elements is written. */
  function TagText(t: TypeTag): (r: Result<string>)
    ensures r.Ok? ==> r.value != ""
  {
    match t
    case Struct(_, _, _, _) => Print(t)
    case Vector(elem) => Ok(EnumName(elem))
    case _ => Ok(EnumName(t))
  }

  // ---- reading -------------------------------------------------------------

  /** `replace(" ", "")`. */
  function NoSpaces(s: string): (r: string)
    ensures |r| <= |s|
  {
    if s == "" then "" else (if s[0] == ' ' then "" else [s[0]]) + NoSpaces(s[1..])
  }

  /** `count("vector")`. */
  function VectorCount(s: string): nat {
    if |s| < 6 then 0
    else if s[..6] == "vector" then 1 + VectorCount(s[6..])
    else VectorCount(s[1..])
  }

  /** `rfind("<") + 1`. */
  function AfterLastOpen(s: string): (i: nat)
    ensures i <= |s|
  {
    if s == "" then 0 else if s[|s| - 1] == '<' then |s| else AfterLastOpen(s[..|s| - 1])
  }

  /** `index(">")`, which raises if there is none. */
  function FirstClose(s: string): (i: Option<nat>)
    ensures i.Some? ==> i.value < |s|
  {
    if s == "" then None
    else if s[0] == '>' then Some(0)
    else
      match FirstClose(s[1..])
      case Some(i) => Some(i + 1)
      case None => None
  }

  function Between(s: string, from: nat, to: nat): (r: string)
    requires from <= |s| && to <= |s|
    ensures |r| <= to
  {
    if from <= to then s[from..to] else ""
  }

  /** The scalar tags, by their lower-case and their upper-case names. */
  function ScalarTag(s: string): Option<TypeTag> {
    if s == "bool" || s == "Bool" then Some(Bool)
    else if s == "u8" || s == "U8" then Some(U8)
    else if s == "u16" || s == "U16" then Some(U16)
    else if s == "u32" || s == "U32" then Some(U32)
    else if s == "u64" || s == "U64" then Some(U64)
    else if s == "u128" || s == "U128" then Some(U128)
    else if s == "u256" || s == "U256" then Some(U256)
    else None
  }

  predicate Prefixed(s: string) {
    |s| >= 2 && s[0] == '0' && (s[1] == 'x' || s[1] == 'X')
  }

  function Wrap(n: nat, t: TypeTag): TypeTag {
    if n == 0 then t else Vector(Wrap(n - 1, t))
  }

  /** `type_tag_from`. */
  function ReadTag(text: string): Result<TypeTag>
    decreases |text|
  {
    var value := NoSpaces(text);
    if ScalarTag(value).Some? then Ok(ScalarTag(value).value)
    else if |SplitPath(value)| == 1 && Prefixed(value) then Ok(AccountAddress)
    else if VectorCount(value) > 0 then
      match FirstClose(value)
      case None => Err("substring not found")
      case Some(close) =>
        var inner :- ReadTag(Between(value, AfterLastOpen(value), close));
        Ok(Wrap(VectorCount(value), inner))
    else if |SplitPath(value)| > 2 then Parse(value)
    else Err("not a recognized TypeTag")
  }

  /** `type_tag_from`, with its loop around the innermost tag. */
  method TypeTagFrom(text: string) returns (r: Result<TypeTag>)
    ensures r == ReadTag(text)
    decreases |text|
  {
    var value := NoSpaces(text);
    if ScalarTag(value).Some? { return Ok(ScalarTag(value).value); }
    if |SplitPath(value)| == 1 && Prefixed(value) { return Ok(AccountAddress); }
    var count := VectorCount(value);
    if count > 0 {
      var close := FirstClose(value);
      if close.None? { return Err("substring not found"); }
      r := TypeTagFrom(Between(value, AfterLastOpen(value), close.value));
      if r.Err? { return; }
      var tag := r.value;
      for i := 0 to count
        invariant tag == Wrap(i, r.value)
      {
        tag := Vector(tag);
      }
      return Ok(tag);
    }
    if |SplitPath(value)| > 2 {
      r := FromTypeStr(value);
    } else {
      r := Err("not a recognized TypeTag");
    }
  }

  // ---- a tag written and read again ----------------------------------------

  /** The text of a tag in a document; a block with a tag that has none does not export. */
  function TagString(t: TypeTag): (s: string)
    ensures s != ""
  {
    if TagText(t).Ok? then TagText(t).value else "?"
  }

  /** The tag prints, and what it prints is read as some tag. */
  predicate Returns(t: TypeTag) {
    TagText(t).Ok? && ReadTag(TagText(t).value).Ok?
  }

  /** The tag that comes back. */
  function Back(t: TypeTag): TypeTag {
    if Returns(t) then ReadTag(TagText(t).value).value else t
  }

  /** The tag comes back as it was. */
  predicate Survives(t: TypeTag) {
    Returns(t) && Back(t) == t
  }

  lemma NoTextUnread()
    ensures ReadTag("?").Err?
  {
    assert NoSpaces("") == "";
    assert NoSpaces("?") == "?";
  }

  lemma StringRead(t: TypeTag)
    ensures ReadTag(TagString(t)).Ok? <==> Returns(t)
    ensures Returns(t) ==> ReadTag(TagString(t)) == Ok(Back(t))
  {
    if TagText(t).Err? { NoTextUnread(); }
  }
}
