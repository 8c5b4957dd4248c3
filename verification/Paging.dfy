// Fetching every page of a listing, and the follow-up fetches of truncated packages and modules.

module Paging {
  import opened Base

  /** The commands of the paging protocol: three that take part in compound fetches, and the rest by
      how they page. */
  datatype Kind =
    | GetPackage
    | GetModule
    | GetFunctions
    | GetStructures
    | OtherListing
    | OtherSingle
    | NoPath

  datatype Request = Request(kind: Kind, package: string, moduleName: string)

  datatype Item =
    | Module(name: string, functions: seq<Item>, datatypes: seq<Item>, moreFunctions: bool, moreDatatypes: bool)
    | Leaf(text: string)
  {
    /** Any of the attributes that mark a truncated module; other items lack them. */
    predicate Truncated() { Module? && (moreFunctions || moreDatatypes) }
  }

  type Token = bytes

  /** What one `execute` gives. */
  datatype Reply =
    | Failed(why: string)
    | Listing(items: seq<Item>, next: Option<Token>)
    | Single(item: Item)

  /** The server, as a function of the command and its page token. */
  type Server = (Request, Option<Token>) -> Reply

  predicate Pageable(k: Kind) {
    k == GetPackage || k == GetFunctions || k == GetStructures || k == OtherListing || k == NoPath
  }

  /** Pageable commands are answered by listings, a package's listing holding modules, and a module
      command by a module. */
  predicate Fits(q: Request, r: Reply) {
    match r
    case Failed(_) => true
    case Listing(items, _) =>
      Pageable(q.kind) && (q.kind == GetPackage ==> forall i :: 0 <= i < |items| ==> items[i].Module?)
    case Single(item) => !Pageable(q.kind) && (q.kind == GetModule ==> item.Module?)
  }

  /** How many pages are left after a token, at most. */
  type Left = (Request, Option<Token>) -> nat

  /** The requests that a request can lead to: itself, the listings of a module, and the modules of a
      package with their listings. */
  predicate LeadsTo(q: Request, r: Request) {
    || r == q
    || (q.kind == GetModule && (r == q.(kind := GetFunctions) || r == q.(kind := GetStructures)))
    || (q.kind == GetPackage && r.package == q.package && r.kind in {GetModule, GetFunctions, GetStructures})
  }

  /** For every request that `q` leads to the chain of pages is finite: following a page's token makes
      `left` smaller. */
  ghost predicate Orderly(serve: Server, left: Left, q: Request) {
    forall r: Request, t: Option<Token> {:trigger serve(r, t)} | LeadsTo(q, r) ::
      && Fits(r, serve(r, t))
      && (serve(r, t).Listing? && serve(r, t).next.Some? ==> left(r, serve(r, t).next) < left(r, t))
  }

  // ---- what is fetched -----------------------------------------------------

  type Log = seq<(Request, Option<Token>)>

  /** The result, and every `execute` in order. */
  datatype Outcome = Outcome(result: Result<Reply>, log: Log)

  /** What earlier pages, and the requests for them, add to what the later ones give. */
  function Extend(items: seq<Item>, log: Log, o: Outcome): Outcome {
    Outcome(
      if o.result.Ok? && o.result.value.Listing? then Ok(Listing(items + o.result.value.items, None)) else o.result,
      log + o.log)
  }

  /** All the items of a chain of pages, from a token on. */
  ghost function Pages(serve: Server, left: Left, q: Request, t: Option<Token>): (o: Outcome)
    requires Orderly(serve, left, q) && Pageable(q.kind)
    ensures o.result.Ok? ==> o.result.value.Listing? && o.result.value.next == None
    ensures o.result.Ok? && q.kind == GetPackage ==> Fits(q, o.result.value)
    decreases left(q, t)
  {
    var page := serve(q, t);
    if page.Failed? then Outcome(Err(page.why), [(q, t)])
    else if page.next == None then Outcome(Ok(page), [(q, t)])
    else Extend(page.items, [(q, t)], Pages(serve, left, q, page.next))
  }

  function Rank(k: Kind): nat {
    match k
    case GetPackage => 2
    case GetModule => 1
    case _ => 0
  }

  /** `execute_for_all`. */
  ghost function ForAll(serve: Server, left: Left, q: Request, t: Option<Token>): (o: Outcome)
    requires Orderly(serve, left, q)
    ensures o.result.Ok? ==> !o.result.value.Failed?
    ensures o.result.Ok? && (q.kind == GetModule || q.kind == GetPackage) ==> Fits(q, o.result.value)
    ensures o.result.Ok? && (q.kind == GetFunctions || q.kind == GetStructures) ==> o.result.value.Listing?
    decreases Rank(q.kind), 1
  {
    if !Pageable(q.kind) then
      var r := serve(q, t);
      if r.Failed? then Outcome(Err(r.why), [(q, t)])
      else
        var c := Compound(serve, left, q, r);
        Outcome(c.result, [(q, t)] + c.log)
    else if q.kind == NoPath then Outcome(Err("paginated field path is not set"), [])
    else
      var all := Pages(serve, left, q, t);
      if all.result.Err? then all
      else
        var c := Compound(serve, left, q, all.result.value);
        Outcome(c.result, all.log + c.log)
  }

  /** `_apply_compound` on a successful result. */
  ghost function Compound(serve: Server, left: Left, q: Request, r: Reply): (o: Outcome)
    requires Orderly(serve, left, q) && Fits(q, r) && !r.Failed?
    ensures o.result.Ok? ==> Fits(q, o.result.value) && !o.result.value.Failed? && o.result.value.Listing? == r.Listing?
    decreases Rank(q.kind), 0
  {
    if q.kind == GetModule then CompoundModule(serve, left, q, r.item)
    else if q.kind == GetPackage then
      var (items, log) := CompoundItems(serve, left, q, r.items);
      Outcome(Ok(r.(items := items)), log)
    else Outcome(Ok(r), [])
  }

  /** The sub-collections of a module: all functions, then all datatypes, each if truncated. */
  ghost function CompoundModule(serve: Server, left: Left, q: Request, m: Item): (o: Outcome)
    requires Orderly(serve, left, q) && q.kind == GetModule && m.Module?
    ensures o.result.Ok? ==> o.result.value.Single? && o.result.value.item.Module?
    decreases 0, 2
  {
    var f := if m.moreFunctions then ForAll(serve, left, q.(kind := GetFunctions), None)
             else Outcome(Ok(Listing(m.functions, None)), []);
    if f.result.Err? then f
    else
      var d := if m.moreDatatypes then ForAll(serve, left, q.(kind := GetStructures), None)
               else Outcome(Ok(Listing(m.datatypes, None)), []);
      if d.result.Err? then Outcome(d.result, f.log + d.log)
      else Outcome(Ok(Single(m.(functions := f.result.value.items, datatypes := d.result.value.items))), f.log + d.log)
  }

  /** Truncated modules of a package are fetched again; where that fails the module is kept as it is. */
  ghost function CompoundItems(serve: Server, left: Left, q: Request, items: seq<Item>): (r: (seq<Item>, Log))
    requires Orderly(serve, left, q) && q.kind == GetPackage && forall i :: 0 <= i < |items| ==> items[i].Module?
    ensures |r.0| == |items| && forall i :: 0 <= i < |items| ==> r.0[i].Module?
    decreases 1, 3, |items|
  {
    if items == [] then ([], [])
    else
      var (first, fetched) := Again(serve, left, q, items[0]);
      var (rest, log) := CompoundItems(serve, left, q, items[1..]);
      ([first] + rest, fetched + log)
  }

  ghost function Again(serve: Server, left: Left, q: Request, item: Item): (r: (Item, Log))
    requires Orderly(serve, left, q) && q.kind == GetPackage && item.Module?
    ensures r.0.Module?
    decreases 1, 2, 0
  {
    if !item.Truncated() then (item, [])
    else
      var o := ForAll(serve, left, ModuleOf(q, item), None);
      (if o.result.Ok? then o.result.value.item else item, o.log)
  }

  function ModuleOf(q: Request, item: Item): Request
    requires item.Module?
  {
    Request(GetModule, q.package, item.name)
  }

  // ---- the client ----------------------------------------------------------

  /** The first `i` items of a package's list have been dealt with. */
  ghost predicate SoFar(serve: Server, left: Left, q: Request, list: seq<Item>, i: nat,
                        items: seq<Item>, fetched: Log)
    requires Orderly(serve, left, q) && q.kind == GetPackage && forall j :: 0 <= j < |list| ==> list[j].Module?
  {
    && i <= |list| == |items| && items[i..] == list[i..]
    && CompoundItems(serve, left, q, list).0 == items[..i] + CompoundItems(serve, left, q, list[i..]).0
    && CompoundItems(serve, left, q, list).1 == fetched + CompoundItems(serve, left, q, list[i..]).1
  }

  lemma SoFarStep(serve: Server, left: Left, q: Request, list: seq<Item>, i: nat,
                  items: seq<Item>, fetched: Log)
    requires Orderly(serve, left, q) && q.kind == GetPackage && forall j :: 0 <= j < |list| ==> list[j].Module?
    requires i < |list| && SoFar(serve, left, q, list, i, items, fetched)
    ensures items[i] == list[i]
    ensures var (now, more) := Again(serve, left, q, list[i]);
      SoFar(serve, left, q, list, i + 1, items[i := now], fetched + more)
  {
    var (now, more) := Again(serve, left, q, list[i]);
    var (rest, later) := CompoundItems(serve, left, q, list[i + 1..]);
    assert list[i..][0] == list[i] && list[i..][1..] == list[i + 1..];
    assert items[i] == items[i..][0];
    assert items[i := now][i + 1..] == items[i..][1..];
    assert items[..i] + ([now] + rest) == items[i := now][..i + 1] + rest;
    assert fetched + (more + later) == fetched + more + later;
  }

  class Command {
    const request: Request
    var nextPageToken: Option<Token>

    constructor (request: Request, token: Option<Token>)
      ensures this.request == request && nextPageToken == token
    {
      this.request, nextPageToken := request, token;
    }
  }

  /** The data object of a result, which later pages and sub-fetches update in place. */
  class Data {
    var reply: Reply

    constructor (reply: Reply)
      ensures this.reply == reply
    {
      this.reply := reply;
    }
  }

  lemma ExtendTwice(a: seq<Item>, l: Log, b: seq<Item>, m: Log, o: Outcome)
    ensures Extend(a, l, Extend(b, m, o)) == Extend(a + b, l + m, o)
  {
    assert l + (m + o.log) == l + m + o.log;
    if o.result.Ok? && o.result.value.Listing? {
      assert a + (b + o.result.value.items) == a + b + o.result.value.items;
    }
  }

  /** The page loop has `items` so far, after the requests `done`, and goes on from a token. */
  ghost predicate OnTheWay(serve: Server, left: Left, q: Request, t: Option<Token>, items: seq<Item>, done: Log,
                           all: Outcome)
    requires Orderly(serve, left, q) && Pageable(q.kind)
  {
    all == Extend(items, done, Pages(serve, left, q, t))
  }

  lemma PagesStart(serve: Server, left: Left, q: Request, t: Option<Token>)
    requires Orderly(serve, left, q) && Pageable(q.kind)
    ensures OnTheWay(serve, left, q, t, [], [], Pages(serve, left, q, t))
  {
    var o := Pages(serve, left, q, t);
    assert [] + o.log == o.log;
    if o.result.Ok? { assert [] + o.result.value.items == o.result.value.items; }
  }

  /** One turn of the page loop. */
  lemma PagesStep(serve: Server, left: Left, q: Request, t: Option<Token>, items: seq<Item>, done: Log, all: Outcome)
    requires Orderly(serve, left, q) && Pageable(q.kind) && OnTheWay(serve, left, q, t, items, done, all)
    requires serve(q, t).Listing? && serve(q, t).next.Some?
    ensures OnTheWay(serve, left, q, serve(q, t).next, items + serve(q, t).items, done + [(q, t)], all)
    ensures left(q, serve(q, t).next) < left(q, t)
  {
    ExtendTwice(items, done, serve(q, t).items, [(q, t)], Pages(serve, left, q, serve(q, t).next));
  }

  /** The last turn of the page loop: a failure, or a page without a token. */
  lemma PagesEnd(serve: Server, left: Left, q: Request, t: Option<Token>, items: seq<Item>, done: Log, all: Outcome)
    requires Orderly(serve, left, q) && Pageable(q.kind) && OnTheWay(serve, left, q, t, items, done, all)
    requires serve(q, t).Failed? || serve(q, t).next == None
    ensures all == Outcome(if serve(q, t).Failed? then Err(serve(q, t).why)
                           else Ok(Listing(items + serve(q, t).items, None)), done + [(q, t)])
  {
  }

  class Client {
    const serve: Server
    var log: Log

    constructor (serve: Server)
      ensures this.serve == serve && log == []
    {
      this.serve, log := serve, [];
    }

    method Execute(command: Command) returns (r: Result<Data>)
      modifies this
      ensures log == old(log) + [(command.request, command.nextPageToken)]
      ensures var reply := serve(command.request, command.nextPageToken);
        if reply.Failed? then r == Err(reply.why) else r.Ok? && fresh(r.value) && r.value.reply == reply
    {
      log := log + [(command.request, command.nextPageToken)];
      var reply := serve(command.request, command.nextPageToken);
      if reply.Failed? { return Err(reply.why); }
      var data := new Data(reply);
      return Ok(data);
    }

    /** The page loop, on the copied command: later pages extend the first page's object. */
    method Accumulate(command: Command, ghost left: Left) returns (r: Result<Data>)
      requires Orderly(serve, left, command.request) && Pageable(command.request.kind)
      modifies this, command
      ensures var o := Pages(serve, left, command.request, old(command.nextPageToken));
        && log == old(log) + o.log
        && (if o.result.Err? then r == Err(o.result.why)
            else r.Ok? && fresh(r.value) && r.value.reply == o.result.value)
    {
      var q := command.request;
      ghost var done: Log, items: seq<Item> := [], [];
      ghost var all := Pages(serve, left, q, command.nextPageToken);
      PagesStart(serve, left, q, command.nextPageToken);
      var accumulator: Data? := null;
      while true
        invariant accumulator == null ==> items == []
        invariant accumulator != null ==> fresh(accumulator) && accumulator.reply.Listing?
        invariant accumulator != null ==> accumulator.reply.items == items
        invariant log == old(log) + done
        invariant OnTheWay(serve, left, q, command.nextPageToken, items, done, all)
        decreases left(q, command.nextPageToken)
      {
        ghost var token := command.nextPageToken;
        var result := Execute(command);
        if result.Err? {
          PagesEnd(serve, left, q, token, items, done, all);
          return result;
        }
        var page := result.value;
        if accumulator == null {
          accumulator := page;
        } else {
          accumulator.reply := accumulator.reply.(items := accumulator.reply.items + page.reply.items);
        }
        var next := page.reply.next;
        if next == None {
          PagesEnd(serve, left, q, token, items, done, all);
          break;
        }
        PagesStep(serve, left, q, token, items, done, all);
        items, done := items + page.reply.items, done + [(q, token)];
        command.nextPageToken := next;
      }
      accumulator.reply := accumulator.reply.(next := None);
      return Ok(accumulator);
    }

    /** `execute_for_all`: only the client's log and new objects change, not the caller's command. */
    method ExecuteForAll(command: Command, ghost left: Left) returns (r: Result<Data>)
      requires Orderly(serve, left, command.request)
      modifies this
      ensures var o := ForAll(serve, left, command.request, command.nextPageToken);
        && log == old(log) + o.log
        && (if o.result.Err? then r == Err(o.result.why)
            else r.Ok? && fresh(r.value) && r.value.reply == o.result.value)
      decreases Rank(command.request.kind), 1
    {
      if !Pageable(command.request.kind) {
        r := Execute(command);
      } else if command.request.kind == NoPath {
        return Err("paginated field path is not set");
      } else {
        var copy := new Command(command.request, command.nextPageToken);
        r := Accumulate(copy, left);
      }
      if r.Ok? { r := ApplyCompound(command.request, r.value, left); }
    }

    /** `_apply_compound`, on a successful result. */
    method ApplyCompound(q: Request, data: Data, ghost left: Left) returns (r: Result<Data>)
      requires Orderly(serve, left, q) && Fits(q, data.reply) && !data.reply.Failed?
      modifies this, data
      ensures var o := Compound(serve, left, q, old(data.reply));
        && log == old(log) + o.log
        && (if o.result.Err? then r == Err(o.result.why) else r == Ok(data) && data.reply == o.result.value)
      decreases Rank(q.kind), 0
    {
      if q.kind == GetModule {
        r := FetchSubCollections(q, data, left);
      } else if q.kind == GetPackage {
        var items := RefetchItems(q, data.reply.items, left);
        data.reply := data.reply.(items := items);
        return Ok(data);
      } else {
        return Ok(data);
      }
    }

    /** The sub-collections of a module. */
    method FetchSubCollections(q: Request, data: Data, ghost left: Left) returns (r: Result<Data>)
      requires Orderly(serve, left, q) && q.kind == GetModule && data.reply.Single? && data.reply.item.Module?
      modifies this, data
      ensures var o := CompoundModule(serve, left, q, old(data.reply.item));
        && log == old(log) + o.log
        && (if o.result.Err? then r == Err(o.result.why) else r == Ok(data) && data.reply == o.result.value)
      decreases 0, 2
    {
      if data.reply.item.moreFunctions {
        var sub := FetchListing(q.(kind := GetFunctions), left);
        if sub.Err? { return Err(sub.why); }
        data.reply := data.reply.(item := data.reply.item.(functions := sub.value));
      }
      if data.reply.item.moreDatatypes {
        var sub := FetchListing(q.(kind := GetStructures), left);
        if sub.Err? { return Err(sub.why); }
        data.reply := data.reply.(item := data.reply.item.(datatypes := sub.value));
      }
      return Ok(data);
    }

    /** A whole listing, from its first page on. */
    method FetchListing(q: Request, ghost left: Left) returns (r: Result<seq<Item>>)
      requires Orderly(serve, left, q) && (q.kind == GetFunctions || q.kind == GetStructures)
      modifies this
      ensures var o := ForAll(serve, left, q, None);
        && log == old(log) + o.log
        && r == if o.result.Err? then Err(o.result.why) else Ok(o.result.value.items)
      decreases 0, 2, 0
    {
      var command := new Command(q, None);
      var sub := ExecuteForAll(command, left);
      return if sub.Err? then Err(sub.why) else Ok(sub.value.reply.items);
    }

    /** One item of a package: fetched again if truncated, and kept if that fails. */
    method Refetch(q: Request, item: Item, ghost left: Left) returns (now: Item)
      requires Orderly(serve, left, q) && q.kind == GetPackage && item.Module?
      modifies this
      ensures now == Again(serve, left, q, item).0 && log == old(log) + Again(serve, left, q, item).1
      decreases 1, 2
    {
      now := item;
      if item.Truncated() {
        var command := new Command(ModuleOf(q, item), None);
        var sub := ExecuteForAll(command, left);
        if sub.Ok? { now := sub.value.reply.item; }
      }
    }

    /** The truncated modules of a package's list. */
    method RefetchItems(q: Request, list: seq<Item>, ghost left: Left) returns (items: seq<Item>)
      requires Orderly(serve, left, q) && q.kind == GetPackage && forall i :: 0 <= i < |list| ==> list[i].Module?
      modifies this
      ensures items == CompoundItems(serve, left, q, list).0
      ensures log == old(log) + CompoundItems(serve, left, q, list).1
      decreases 1, 3
    {
      items := list;
      ghost var fetched: Log := [];
      for i := 0 to |list|
        invariant SoFar(serve, left, q, list, i, items, fetched)
        invariant log == old(log) + fetched
      {
        SoFarStep(serve, left, q, list, i, items, fetched);
        fetched := fetched + Again(serve, left, q, list[i]).1;
        var now := Refetch(q, items[i], left);
        items := items[i := now];
      }
    }
  }

  // ---- what a caller gets --------------------------------------------------

  /** The server answers a command, from a token on, with these pages: every page but the last names
      the next one, and the last names none or is a failure. */
  predicate Answers(serve: Server, q: Request, t: Option<Token>, pages: seq<Reply>)
    decreases |pages|
  {
    && pages != []
    && serve(q, t) == pages[0]
    && if |pages| == 1 then pages[0].Failed? || (pages[0].Listing? && pages[0].next == None)
       else pages[0].Listing? && pages[0].next.Some? && Answers(serve, q, pages[0].next, pages[1..])
  }

  function NextToken(page: Reply): Option<Token> {
    if page.Listing? then page.next else None
  }

  function Items(pages: seq<Reply>): seq<Item> {
    if pages == [] then [] else (if pages[0].Listing? then pages[0].items else []) + Items(pages[1..])
  }

  /** A listing gives the items of all its pages in order, with one `execute` per page and no token
      left, or the error of the page that failed. */
  lemma {:induction false} EveryPageOnce(serve: Server, left: Left, q: Request, t: Option<Token>,
                                         pages: seq<Reply>)
    requires Orderly(serve, left, q) && Pageable(q.kind) && Answers(serve, q, t, pages)
    ensures var o := Pages(serve, left, q, t);
      && |o.log| == |pages| && o.log[0] == (q, t)
      && (forall i :: 0 < i < |pages| ==> o.log[i] == (q, NextToken(pages[i - 1])))
      && o.result == if pages[|pages| - 1].Failed? then Err(pages[|pages| - 1].why) else Ok(Listing(Items(pages), None))
    decreases |pages|
  {
    if |pages| == 1 {
      assert pages[1..] == [];
      if pages[0].Listing? { assert pages[0].items + [] == pages[0].items; }
    } else {
      EveryPageOnce(serve, left, q, pages[0].next, pages[1..]);
      var rest := Pages(serve, left, q, pages[0].next);
      assert Pages(serve, left, q, t).log == [(q, t)] + rest.log;
      assert pages[1..][|pages| - 2] == pages[|pages| - 1];
      forall i | 0 < i < |pages| ensures ([(q, t)] + rest.log)[i] == (q, NextToken(pages[i - 1])) {
        if i > 1 { assert rest.log[i - 1] == (q, NextToken(pages[1..][i - 2])); }
      }
    }
  }

  // ---- execute_for_all -----------------------------------------------------

  /** The requests for these pages: the first with `t`, each other one with the token of the page before. */
  function Requests(q: Request, t: Option<Token>, pages: seq<Reply>): Log
    decreases |pages|
  {
    if pages == [] then [] else [(q, t)] + Requests(q, NextToken(pages[0]), pages[1..])
  }

  /** All the items, or the error of the last page. */
  function Whole(pages: seq<Reply>): Result<Reply>
    requires pages != []
  {
    if pages[|pages| - 1].Failed? then Err(pages[|pages| - 1].why) else Ok(Listing(Items(pages), None))
  }

  lemma {:induction false} PagesRequests(serve: Server, left: Left, q: Request, t: Option<Token>, pages: seq<Reply>)
    requires Orderly(serve, left, q) && Pageable(q.kind) && Answers(serve, q, t, pages)
    ensures Pages(serve, left, q, t).log == Requests(q, t, pages)
    decreases |pages|
  {
    if |pages| > 1 {
      PagesRequests(serve, left, q, pages[0].next, pages[1..]);
    } else {
      assert pages[1..] == [] && [(q, t)] + [] == [(q, t)];
    }
  }

  /** A listing without follow-up fetches: the items of all its pages in order, or the error of the page that
      failed, with one request for each page. */
  lemma ListingIsWhole(serve: Server, left: Left, q: Request, t: Option<Token>, pages: seq<Reply>)
    requires Orderly(serve, left, q) && q.kind in {GetFunctions, GetStructures, OtherListing}
    requires Answers(serve, q, t, pages)
    ensures ForAll(serve, left, q, t) == Outcome(Whole(pages), Requests(q, t, pages))
  {
    EveryPageOnce(serve, left, q, t, pages);
    PagesRequests(serve, left, q, t, pages);
    var o := ForAll(serve, left, q, t);
    assert Pages(serve, left, q, t).log + [] == Pages(serve, left, q, t).log;
  }

  /** A command that is not paged and has no follow-up fetches: its reply as it is, with one request. */
  lemma SingleComesBack(serve: Server, left: Left, q: Request, t: Option<Token>)
    requires Orderly(serve, left, q) && q.kind == OtherSingle
    ensures var r := serve(q, t);
      ForAll(serve, left, q, t) == Outcome(if r.Failed? then Err(r.why) else Ok(r), [(q, t)])
  {
    assert [(q, t)] + [] == [(q, t)];
  }

  /** A paged command without the path to its items fails without a request. */
  lemma NoPathFails(serve: Server, left: Left, q: Request, t: Option<Token>)
    requires Orderly(serve, left, q) && q.kind == NoPath
    ensures ForAll(serve, left, q, t).result.Err? && ForAll(serve, left, q, t).log == []
  {
  }

  /** The part of a module that is fetched: nothing if it is not truncated. */
  function Fetched(more: bool, pages: seq<Reply>, here: seq<Item>): Result<seq<Item>>
    requires more ==> pages != []
  {
    if !more then Ok(here) else if pages[|pages| - 1].Failed? then Err(pages[|pages| - 1].why) else Ok(Items(pages))
  }

  /** What a fetched module is made of: a truncated collection is replaced by the whole listing, functions
      first; the fetch stops and fails if that listing does. */
  lemma ModuleIsWhole(serve: Server, left: Left, q: Request, t: Option<Token>, m: Item, functions: seq<Reply>,
                      datatypes: seq<Reply>)
    requires Orderly(serve, left, q) && q.kind == GetModule && serve(q, t) == Single(m) && m.Module?
    requires Answers(serve, q.(kind := GetFunctions), None, functions)
    requires Answers(serve, q.(kind := GetStructures), None, datatypes)
    ensures var f, d := Fetched(m.moreFunctions, functions, m.functions),
                        Fetched(m.moreDatatypes, datatypes, m.datatypes);
      var asked := [(q, t)] + if m.moreFunctions then Requests(q.(kind := GetFunctions), None, functions) else [];
      ForAll(serve, left, q, t) ==
        if f.Err? then Outcome(Err(f.why), asked)
        else
          Outcome(if d.Err? then Err(d.why) else Ok(Single(m.(functions := f.value, datatypes := d.value))),
                  asked + if m.moreDatatypes then Requests(q.(kind := GetStructures), None, datatypes) else [])
  {
    ListingIsWhole(serve, left, q.(kind := GetFunctions), None, functions);
    ListingIsWhole(serve, left, q.(kind := GetStructures), None, datatypes);
    ModuleParts(serve, left, q, t, m, ForAll(serve, left, q.(kind := GetFunctions), None),
                ForAll(serve, left, q.(kind := GetStructures), None));
  }

  /** A module that cannot be fetched at all. */
  lemma ModuleFails(serve: Server, left: Left, q: Request, t: Option<Token>)
    requires Orderly(serve, left, q) && q.kind == GetModule && serve(q, t).Failed?
    ensures ForAll(serve, left, q, t) == Outcome(Err(serve(q, t).why), [(q, t)])
  {
  }

  lemma ModuleParts(serve: Server, left: Left, q: Request, t: Option<Token>, m: Item, f: Outcome, d: Outcome)
    requires Orderly(serve, left, q) && q.kind == GetModule && serve(q, t) == Single(m) && m.Module?
    requires f == ForAll(serve, left, q.(kind := GetFunctions), None)
    requires d == ForAll(serve, left, q.(kind := GetStructures), None)
    ensures var asked := [(q, t)] + if m.moreFunctions then f.log else [];
      ForAll(serve, left, q, t) ==
        if m.moreFunctions && f.result.Err? then Outcome(Err(f.result.why), asked)
        else
          Outcome(if m.moreDatatypes && d.result.Err? then Err(d.result.why)
                  else Ok(Single(m.(functions := if m.moreFunctions then f.result.value.items else m.functions,
                                    datatypes := if m.moreDatatypes then d.result.value.items else m.datatypes))),
                  asked + if m.moreDatatypes then d.log else [])
  {
    var c := CompoundModule(serve, left, q, m);
    assert Compound(serve, left, q, Single(m)) == c;
    assert ForAll(serve, left, q, t) == Outcome(c.result, [(q, t)] + c.log);
    var fl, dl := if m.moreFunctions then f.log else [], if m.moreDatatypes then d.log else [];
    assert [(q, t)] + (fl + dl) == [(q, t)] + fl + dl;
  }

  /** A module of a package's list: fetched again if truncated, unless that fails. */
  ghost function Refetched(serve: Server, left: Left, q: Request, m: Item): Item
    requires Orderly(serve, left, q) && q.kind == GetPackage && m.Module?
  {
    var again := ForAll(serve, left, Request(GetModule, q.package, m.name), None).result;
    if (m.moreFunctions || m.moreDatatypes) && again.Ok? then again.value.item else m
  }

  /** The requests for the truncated modules, in order. */
  ghost function RefetchLog(serve: Server, left: Left, q: Request, items: seq<Item>): Log
    requires Orderly(serve, left, q) && q.kind == GetPackage && forall i :: 0 <= i < |items| ==> items[i].Module?
  {
    if items == [] then []
    else
      (if items[0].moreFunctions || items[0].moreDatatypes
       then ForAll(serve, left, Request(GetModule, q.package, items[0].name), None).log else [])
      + RefetchLog(serve, left, q, items[1..])
  }

  lemma {:induction false} ItemsRefetched(serve: Server, left: Left, q: Request, items: seq<Item>)
    requires Orderly(serve, left, q) && q.kind == GetPackage && forall i :: 0 <= i < |items| ==> items[i].Module?
    ensures var r := CompoundItems(serve, left, q, items);
      && |r.0| == |items| && r.1 == RefetchLog(serve, left, q, items)
      && forall i :: 0 <= i < |items| ==> r.0[i] == Refetched(serve, left, q, items[i])
    decreases |items|
  {
    if items != [] {
      ItemsRefetched(serve, left, q, items[1..]);
      var rest := CompoundItems(serve, left, q, items[1..]);
      OneRefetched(serve, left, q, items[0]);
      assert CompoundItems(serve, left, q, items).0 == [Again(serve, left, q, items[0]).0] + rest.0;
    }
  }

  lemma OneRefetched(serve: Server, left: Left, q: Request, m: Item)
    requires Orderly(serve, left, q) && q.kind == GetPackage && m.Module?
    ensures Again(serve, left, q, m) ==
      (Refetched(serve, left, q, m),
       if m.moreFunctions || m.moreDatatypes then
         ForAll(serve, left, Request(GetModule, q.package, m.name), None).log
       else [])
  {
  }

  lemma {:induction false} ItemsAreModules(serve: Server, left: Left, q: Request, t: Option<Token>, pages: seq<Reply>)
    requires Orderly(serve, left, q) && q.kind == GetPackage && Answers(serve, q, t, pages)
    ensures forall i :: 0 <= i < |Items(pages)| ==> Items(pages)[i].Module?
    decreases |pages|
  {
    assert Fits(q, serve(q, t));
    if |pages| > 1 { ItemsAreModules(serve, left, q, pages[0].next, pages[1..]); }
  }

  /** A fetched package lists the modules of its pages in order, each replaced by what fetching it alone
      gives if it was truncated and that fetch succeeds; it fails only if a page does. The requests are
      those for the pages, and then those for the truncated modules. */
  lemma PackageIsWhole(serve: Server, left: Left, q: Request, t: Option<Token>, pages: seq<Reply>)
    requires Orderly(serve, left, q) && q.kind == GetPackage && Answers(serve, q, t, pages)
    ensures forall i :: 0 <= i < |Items(pages)| ==> Items(pages)[i].Module?
    ensures var o, all := ForAll(serve, left, q, t), Items(pages);
      if pages[|pages| - 1].Failed? then o == Outcome(Err(pages[|pages| - 1].why), Requests(q, t, pages))
      else
        && o.result.Ok? && o.result.value.Listing? && o.result.value.next == None
        && |o.result.value.items| == |all|
        && (forall i :: 0 <= i < |all| ==> o.result.value.items[i] == Refetched(serve, left, q, all[i]))
        && o.log == Requests(q, t, pages) + RefetchLog(serve, left, q, all)
  {
    ItemsAreModules(serve, left, q, t, pages);
    EveryPageOnce(serve, left, q, t, pages);
    PagesRequests(serve, left, q, t, pages);
    if !pages[|pages| - 1].Failed? {
      ItemsRefetched(serve, left, q, Items(pages));
      assert Compound(serve, left, q, Listing(Items(pages), None)).log == RefetchLog(serve, left, q, Items(pages));
    }
  }
}
