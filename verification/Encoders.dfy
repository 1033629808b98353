/** The generated encoders as they run (internal/domain/domain_easyjson.go): tokens appended to a buffer, member by
    member, with a time that cannot be written recorded as the writer's error. */
module Encoders {
  import opened Wrappers
  import opened JsonLexer
  import opened JsonText
  import opened Documents
  import opened DocumentRoundTrip

  // ---------------------------------------------------------------- text built up from the left

  lemma {:induction false} PrintAppends(v: Value, more: seq<Token>)
    ensures Print(v, more) == Print(v, []) + more
    decreases v
  {
    match v
    case VArr(items) => PrintItemsAppends(items, true, more);
    case VObj(members) => PrintMembersAppends(members, true, more);
    case _ =>
  }

  lemma {:induction false} PrintItemsAppends(items: seq<Value>, first: bool, more: seq<Token>)
    ensures PrintItems(items, first, more) == PrintItems(items, first, []) + more
    decreases items
  {
    if items != [] {
      PrintItemsAppends(items[1..], false, more);
      PrintAppends(items[0], PrintItems(items[1..], false, more));
      PrintAppends(items[0], PrintItems(items[1..], false, []));
    }
  }

  lemma {:induction false} PrintMembersAppends(members: seq<Member>, first: bool, more: seq<Token>)
    ensures PrintMembers(members, first, more) == PrintMembers(members, first, []) + more
    decreases members
  {
    if members != [] {
      PrintMembersAppends(members[1..], false, more);
      PrintAppends(members[0].value, PrintMembers(members[1..], false, more));
      PrintAppends(members[0].value, PrintMembers(members[1..], false, []));
    }
  }

  lemma Assoc(a: seq<Token>, b: seq<Token>, c: seq<Token>)
    ensures (a + b) + c == a + (b + c)
  {}

  /** A member with the comma before it: the first has none. */
  function Piece(first: bool, key: string, v: Value): seq<Token> {
    (if first then [] else [Comma]) + [Str(key), Colon] + Print(v, [])
  }

  lemma ItemFits(base: seq<Token>, text: seq<Token>, first: bool, item: seq<Token>)
    ensures first ==> base + text + item == base + (text + ([] + item))
    ensures !first ==> base + text + [Comma] + item == base + (text + ([Comma] + item))
  {}

  /** Members written so far, the closing brace still missing. */
  function Written(members: seq<Member>, first: bool): seq<Token> {
    if members == [] then []
    else
      var m := members[|members| - 1];
      Written(members[..|members| - 1], first) + Piece(first && |members| == 1, m.key, m.value)
  }

  lemma WrittenNext(members: seq<Member>, key: string, v: Value, first: bool)
    ensures Written(members + [Member(key, v)], first) == Written(members, first) + Piece(first && members == [], key, v)
  {
    assert (members + [Member(key, v)])[..|members|] == members;
  }

  /** The member's prefix and then its value are put after the members so far. */
  lemma PieceFits(base: seq<Token>, done: seq<Member>, key: string, v: Value)
    ensures base + Written(done, true) + (if done == [] then [] else [Comma]) + [Str(key), Colon] + Print(v, [])
      == base + Written(done + [Member(key, v)], true)
  {
    WrittenNext(done, key, v, true);
    Appended(base, Written(done, true), if done == [] then [] else [Comma], [Str(key), Colon], Print(v, []));
  }

  lemma Appended(a: seq<Token>, b: seq<Token>, c: seq<Token>, d: seq<Token>, e: seq<Token>)
    ensures a + b + c + d + e == a + (b + (c + d + e))
  {}

  lemma {:induction false} WrittenFirst(m: Member, rest: seq<Member>, first: bool)
    ensures Written([m] + rest, first) == Piece(first, m.key, m.value) + Written(rest, false)
    decreases |rest|
  {
    if rest == [] {
      assert [m] + rest == [] + [m];
      WrittenNext([], m.key, m.value, first);
    } else {
      var init, last := rest[..|rest| - 1], rest[|rest| - 1];
      WrittenFirst(m, init, first);
      assert [m] + rest == ([m] + init) + [Member(last.key, last.value)];
      WrittenNext([m] + init, last.key, last.value, first);
      Assoc(Piece(first, m.key, m.value), Written(init, false), Piece(false, last.key, last.value));
    }
  }

  lemma {:induction false} WrittenIsPrinted(members: seq<Member>, first: bool)
    ensures PrintMembers(members, first, []) == Written(members, first) + [RBrace]
    decreases |members|
  {
    if members != [] {
      var m, rest := members[0], members[1..];
      WrittenIsPrinted(rest, false);
      PrintAppends(m.value, PrintMembers(rest, false, []));
      WrittenFirst(m, rest, first);
      assert [m] + rest == members;
      Regroup(if first then [] else [Comma], m.key, Print(m.value, []), Written(rest, false));
    }
  }

  lemma Regroup(comma: seq<Token>, key: string, value: seq<Token>, rest: seq<Token>)
    ensures comma + ([Str(key)] + ([Colon] + (value + (rest + [RBrace]))))
      == ((comma + [Str(key), Colon] + value) + rest) + [RBrace]
  {}

  /** Array elements written so far. */
  function WrittenItems(vs: seq<Value>, first: bool): seq<Token> {
    if vs == [] then []
    else
      var comma := if first && |vs| == 1 then [] else [Comma];
      WrittenItems(vs[..|vs| - 1], first) + (comma + Print(vs[|vs| - 1], []))
  }

  lemma WrittenItemsNext(vs: seq<Value>, v: Value, first: bool)
    ensures WrittenItems(vs + [v], first)
      == WrittenItems(vs, first) + ((if first && vs == [] then [] else [Comma]) + Print(v, []))
  {
    assert (vs + [v])[..|vs|] == vs;
  }

  lemma {:induction false} WrittenItemsFirst(v: Value, rest: seq<Value>, first: bool)
    ensures WrittenItems([v] + rest, first)
      == ((if first then [] else [Comma]) + Print(v, [])) + WrittenItems(rest, false)
    decreases |rest|
  {
    if rest == [] {
      assert [v] + rest == [] + [v];
      WrittenItemsNext([], v, first);
    } else {
      var init, last := rest[..|rest| - 1], rest[|rest| - 1];
      WrittenItemsFirst(v, init, first);
      assert [v] + rest == ([v] + init) + [last];
      WrittenItemsNext([v] + init, last, first);
      Assoc((if first then [] else [Comma]) + Print(v, []), WrittenItems(init, false), [Comma] + Print(last, []));
    }
  }

  lemma {:induction false} WrittenItemsArePrinted(vs: seq<Value>, first: bool)
    ensures PrintItems(vs, first, []) == WrittenItems(vs, first) + [RBrack]
    decreases |vs|
  {
    if vs != [] {
      WrittenItemsArePrinted(vs[1..], false);
      PrintAppends(vs[0], PrintItems(vs[1..], false, []));
      WrittenItemsFirst(vs[0], vs[1..], first);
      assert [vs[0]] + vs[1..] == vs;
      RegroupItems(if first then [] else [Comma], Print(vs[0], []), WrittenItems(vs[1..], false));
    }
  }

  lemma RegroupItems(comma: seq<Token>, value: seq<Token>, rest: seq<Token>)
    ensures comma + (value + (rest + [RBrack])) == ((comma + value) + rest) + [RBrack]
  {}

  // ---------------------------------------------------------------- the writer

  class Writer {
    const isTime: string -> bool
    var buf: seq<Token>
    var ok: bool

    constructor (isTime: string -> bool)
      ensures this.isTime == isTime && buf == [] && ok
    {
      this.isTime := isTime;
      buf := [];
      ok := true;
    }

    method Put(t: Token)
      modifies this
      ensures buf == old(buf) + [t] && ok == old(ok)
    {
      buf := buf + [t];
    }

    /** The constant before a member's value: a comma, which the first member drops, the key, the colon. */
    method Prefix(first: bool, key: string)
      modifies this
      ensures buf == old(buf) + (if first then [] else [Comma]) + [Str(key), Colon] && ok == old(ok)
    {
      if !first {
        Put(Comma);
      }
      Put(Str(key));
      Put(Colon);
    }

    /** A time as raw text; one the time package cannot write is the writer's error. */
    method Raw(time: string)
      modifies this
      ensures ok == (old(ok) && isTime(time))
      ensures buf == if ok then old(buf) + [Str(time)] else old(buf)
    {
      ok := ok && isTime(time);
      if ok {
        Put(Str(time));
      }
    }

    /** A whole member holding a scalar; `base` is the text before the object's members, `done` the members so far. */
    method Scalar(first: bool, key: string, v: Value, ghost base: seq<Token>, ghost done: seq<Member>)
      returns (ghost now: seq<Member>)
      requires !v.VArr? && !v.VObj? && first == (done == [])
      requires ok ==> buf == base + Written(done, true)
      modifies this
      ensures ok == old(ok) && now == done + [Member(key, v)]
      ensures ok ==> buf == base + Written(now, true)
    {
      Prefix(first, key);
      Put(Head(v));
      now := done + [Member(key, v)];
      PieceFits(base, done, key, v);
    }

    method Time(key: string, time: string, ghost base: seq<Token>, ghost done: seq<Member>)
      returns (ghost now: seq<Member>)
      requires done != []
      requires ok ==> buf == base + Written(done, true)
      modifies this
      ensures ok == (old(ok) && isTime(time)) && now == done + [Member(key, VStr(time))]
      ensures ok ==> buf == base + Written(now, true)
    {
      Prefix(false, key);
      Raw(time);
      now := done + [Member(key, VStr(time))];
      PieceFits(base, done, key, VStr(time));
    }

    /** The closing brace: what was opened at `base` is now a whole object. */
    method Close(ghost base: seq<Token>, ghost done: seq<Member>)
      requires ok ==> buf == base + [LBrace] + Written(done, true)
      modifies this
      ensures ok == old(ok) && (ok ==> buf == base + Print(VObj(done), []))
    {
      Put(RBrace);
      WrittenIsPrinted(done, true);
    }
  }

  // ---------------------------------------------------------------- block outputs

  method EncodeOutput(w: Writer, o: Output)
    modifies w
    ensures w.ok == (old(w.ok) && OutputTimed(o, w.isTime))
    ensures w.ok ==> w.buf == old(w.buf) + Print(VObj(OutputMembers(o)), [])
  {
    w.Put(LBrace);
    ghost var base, done: seq<Member> := w.buf, [];
    done := w.Scalar(true, "ID", VNum(o.id), base, done);
    done := w.Scalar(false, "BlockID", VNum(o.blockId), base, done);
    done := w.Scalar(false, "Position", VNum(o.position), base, done);
    done := w.Scalar(false, "OutputType", VStr(o.outputType), base, done);
    done := w.Scalar(false, "Content", VStr(o.content), base, done);
    done := w.Time("CreatedAt", o.createdAt, base, done);
    assert done == OutputMembers(o);
    w.Close(old(w.buf), done);
  }

  method EncodeOutputs(w: Writer, outputs: Option<seq<Output>>)
    modifies w
    ensures w.ok == (old(w.ok) && (outputs.Some? ==>
              forall i :: 0 <= i < |outputs.value| ==> OutputTimed(outputs.value[i], w.isTime)))
    ensures w.ok ==> w.buf == old(w.buf) + Print(OutputsValue(outputs), [])
  {
    if outputs.None? {
      w.Put(Null);
    } else {
      w.Put(LBrack);
      EncodeOutputItems(w, outputs.value);
      w.Put(RBrack);
      WrittenItemsArePrinted(OutputValues(outputs.value), true);
    }
  }

  predicate OutputsTimed(items: seq<Output>, n: nat, isTime: string -> bool)
    requires n <= |items|
  {
    forall i :: 0 <= i < n ==> OutputTimed(items[i], isTime)
  }

  lemma OutputsTimedNext(items: seq<Output>, n: nat, isTime: string -> bool)
    requires n < |items|
    ensures OutputsTimed(items, n + 1, isTime) <==> OutputsTimed(items, n, isTime) && OutputTimed(items[n], isTime)
  {}

  /** The text of the first `n` elements. */
  function OutputsText(items: seq<Output>, n: nat): seq<Token>
    requires n <= |items|
  {
    if n == 0 then []
    else
      var comma := if n == 1 then [] else [Comma];
      OutputsText(items, n - 1) + (comma + Print(VObj(OutputMembers(items[n - 1])), []))
  }

  lemma {:induction false} OutputsTextIsWritten(items: seq<Output>, n: nat)
    requires n <= |items|
    ensures OutputsText(items, n) == WrittenItems(OutputValues(items[..n]), true)
    decreases n
  {
    if n > 0 {
      OutputsTextIsWritten(items, n - 1);
      OutputsNext(items, n - 1);
    }
  }

  method EncodeOutputItems(w: Writer, items: seq<Output>)
    modifies w
    ensures w.ok == (old(w.ok) && OutputsTimed(items, |items|, w.isTime))
    ensures w.ok ==> w.buf == old(w.buf) + WrittenItems(OutputValues(items), true)
  {
    ghost var base := w.buf;
    for i := 0 to |items|
      invariant w.ok == (old(w.ok) && OutputsTimed(items, i, w.isTime))
      invariant w.ok ==> w.buf == base + OutputsText(items, i)
    {
      OutputsTimedNext(items, i, w.isTime);
      ItemFits(base, OutputsText(items, i), i == 0, Print(VObj(OutputMembers(items[i])), []));
      if i > 0 {
        w.Put(Comma);
      }
      EncodeOutput(w, items[i]);
    }
    OutputsTextIsWritten(items, |items|);
    assert items[..|items|] == items;
  }

  method OutputsMember(w: Writer, outputs: Option<seq<Output>>, ghost base: seq<Token>, ghost done: seq<Member>)
    returns (ghost now: seq<Member>)
    requires done != []
    requires w.ok ==> w.buf == base + Written(done, true)
    modifies w
    ensures w.ok == (old(w.ok) && (outputs.Some? ==>
              forall i :: 0 <= i < |outputs.value| ==> OutputTimed(outputs.value[i], w.isTime)))
    ensures now == done + [Member("Outputs", OutputsValue(outputs))]
    ensures w.ok ==> w.buf == base + Written(now, true)
  {
    w.Prefix(false, "Outputs");
    EncodeOutputs(w, outputs);
    PieceFits(base, done, "Outputs", OutputsValue(outputs));
    now := done + [Member("Outputs", OutputsValue(outputs))];
  }

  lemma OutputsNext(items: seq<Output>, i: nat)
    requires i < |items|
    ensures WrittenItems(OutputValues(items[..i + 1]), true)
      == WrittenItems(OutputValues(items[..i]), true)
         + ((if i == 0 then [] else [Comma]) + Print(VObj(OutputMembers(items[i])), []))
  {
    assert items[..i + 1][..i] == items[..i];
    WrittenItemsNext(OutputValues(items[..i]), VObj(OutputMembers(items[i])), true);
  }

  // ---------------------------------------------------------------- blocks

  method EncodeBlock(w: Writer, b: Block)
    modifies w
    ensures w.ok == (old(w.ok) && BlockTimed(b, w.isTime))
    ensures w.ok ==> w.buf == old(w.buf) + Print(VObj(BlockMembers(b)), [])
  {
    w.Put(LBrace);
    ghost var base := w.buf;
    ghost var source := EncodeBlockSource(w, b);
    ghost var done := w.Scalar(false, "ExecutionCount", CountValue(b.executionCount), base, source);
    done := OutputsMember(w, b.outputs, base, done);
    done := w.Time("CreatedAt", b.createdAt, base, done);
    done := w.Time("UpdatedAt", b.updatedAt, base, done);
    assert done == BlockSource(b) + BlockResults(b);
    w.Close(old(w.buf), done);
  }

  method EncodeBlockSource(w: Writer, b: Block) returns (ghost done: seq<Member>)
    modifies w
    ensures w.ok == old(w.ok) && done == BlockSource(b)
    ensures w.ok ==> w.buf == old(w.buf) + Written(done, true)
  {
    done := [];
    done := w.Scalar(true, "ID", VNum(b.id), old(w.buf), done);
    done := w.Scalar(false, "NotebookID", VNum(b.notebookId), old(w.buf), done);
    done := w.Scalar(false, "Type", VStr(b.kind), old(w.buf), done);
    done := w.Scalar(false, "Language", VStr(b.language), old(w.buf), done);
    done := w.Scalar(false, "Content", VStr(b.content), old(w.buf), done);
    done := w.Scalar(false, "Position", VNum(b.position), old(w.buf), done);
    assert done == BlockSource(b);
  }

  method EncodeBlocks(w: Writer, blocks: Option<seq<Block>>)
    modifies w
    ensures w.ok == (old(w.ok) && (blocks.Some? ==>
              forall i :: 0 <= i < |blocks.value| ==> BlockTimed(blocks.value[i], w.isTime)))
    ensures w.ok ==> w.buf == old(w.buf) + Print(BlocksValue(blocks), [])
  {
    if blocks.None? {
      w.Put(Null);
    } else {
      w.Put(LBrack);
      EncodeBlockItems(w, blocks.value);
      w.Put(RBrack);
      WrittenItemsArePrinted(BlockValues(blocks.value), true);
    }
  }

  predicate BlocksTimed(items: seq<Block>, n: nat, isTime: string -> bool)
    requires n <= |items|
  {
    forall i :: 0 <= i < n ==> BlockTimed(items[i], isTime)
  }

  lemma BlocksTimedNext(items: seq<Block>, n: nat, isTime: string -> bool)
    requires n < |items|
    ensures BlocksTimed(items, n + 1, isTime) <==> BlocksTimed(items, n, isTime) && BlockTimed(items[n], isTime)
  {}

  /** The text of the first `n` elements. */
  function BlocksText(items: seq<Block>, n: nat): seq<Token>
    requires n <= |items|
  {
    if n == 0 then []
    else
      var comma := if n == 1 then [] else [Comma];
      BlocksText(items, n - 1) + (comma + Print(VObj(BlockMembers(items[n - 1])), []))
  }

  lemma {:induction false} BlocksTextIsWritten(items: seq<Block>, n: nat)
    requires n <= |items|
    ensures BlocksText(items, n) == WrittenItems(BlockValues(items[..n]), true)
    decreases n
  {
    if n > 0 {
      BlocksTextIsWritten(items, n - 1);
      BlocksNext(items, n - 1);
    }
  }

  method EncodeBlockItems(w: Writer, items: seq<Block>)
    modifies w
    ensures w.ok == (old(w.ok) && BlocksTimed(items, |items|, w.isTime))
    ensures w.ok ==> w.buf == old(w.buf) + WrittenItems(BlockValues(items), true)
  {
    ghost var base := w.buf;
    for i := 0 to |items|
      invariant w.ok == (old(w.ok) && BlocksTimed(items, i, w.isTime))
      invariant w.ok ==> w.buf == base + BlocksText(items, i)
    {
      BlocksTimedNext(items, i, w.isTime);
      ItemFits(base, BlocksText(items, i), i == 0, Print(VObj(BlockMembers(items[i])), []));
      if i > 0 {
        w.Put(Comma);
      }
      EncodeBlock(w, items[i]);
    }
    BlocksTextIsWritten(items, |items|);
    assert items[..|items|] == items;
  }

  method BlocksMember(w: Writer, blocks: Option<seq<Block>>, ghost base: seq<Token>, ghost done: seq<Member>)
    returns (ghost now: seq<Member>)
    requires done != []
    requires w.ok ==> w.buf == base + Written(done, true)
    modifies w
    ensures w.ok == (old(w.ok) && (blocks.Some? ==>
              forall i :: 0 <= i < |blocks.value| ==> BlockTimed(blocks.value[i], w.isTime)))
    ensures now == done + [Member("Blocks", BlocksValue(blocks))]
    ensures w.ok ==> w.buf == base + Written(now, true)
  {
    w.Prefix(false, "Blocks");
    EncodeBlocks(w, blocks);
    PieceFits(base, done, "Blocks", BlocksValue(blocks));
    now := done + [Member("Blocks", BlocksValue(blocks))];
  }

  lemma BlocksNext(items: seq<Block>, i: nat)
    requires i < |items|
    ensures WrittenItems(BlockValues(items[..i + 1]), true)
      == WrittenItems(BlockValues(items[..i]), true)
         + ((if i == 0 then [] else [Comma]) + Print(VObj(BlockMembers(items[i])), []))
  {
    assert items[..i + 1][..i] == items[..i];
    WrittenItemsNext(BlockValues(items[..i]), VObj(BlockMembers(items[i])), true);
  }

  // ---------------------------------------------------------------- notebooks

  /** The buffer grows by exactly the notebook's text, unless some time cannot be written. */
  method EncodeNotebook(w: Writer, nb: Notebook)
    modifies w
    ensures w.ok == (old(w.ok) && NotebookTimed(nb, w.isTime))
    ensures w.ok ==> w.buf == old(w.buf) + Print(VObj(NotebookMembers(nb)), [])
  {
    w.Put(LBrace);
    ghost var base := w.buf;
    ghost var done := EncodeNotebookTitle(w, nb);
    done := BlocksMember(w, nb.blocks, base, done);
    done := w.Time("CreatedAt", nb.createdAt, base, done);
    done := w.Time("UpdatedAt", nb.updatedAt, base, done);
    done := w.Scalar(false, "YourPermission", VStr(nb.yourPermission), base, done);
    assert done == NotebookTitle(nb) + NotebookBody(nb);
    w.Close(old(w.buf), done);
  }

  method EncodeNotebookTitle(w: Writer, nb: Notebook) returns (ghost done: seq<Member>)
    modifies w
    ensures w.ok == old(w.ok) && done == NotebookTitle(nb)
    ensures w.ok ==> w.buf == old(w.buf) + Written(done, true)
  {
    done := [];
    done := w.Scalar(true, "ID", VNum(nb.id), old(w.buf), done);
    done := w.Scalar(false, "OwnerID", VNum(nb.ownerId), old(w.buf), done);
    done := w.Scalar(false, "OwnerUsername", VStr(nb.ownerUsername), old(w.buf), done);
    done := w.Scalar(false, "Title", VStr(nb.title), old(w.buf), done);
    done := w.Scalar(false, "IsPublic", VBool(nb.isPublic), old(w.buf), done);
    assert done == NotebookTitle(nb);
  }

  // ---------------------------------------------------------------- storage statistics

  /** Iterates the map in whatever order comes and reports that order. */
  method EncodeCounts(w: Writer, counts: Counts) returns (ghost order: seq<string>)
    modifies w
    ensures w.ok == old(w.ok) && OrdersCounts(order, counts)
    ensures w.ok ==> w.buf == old(w.buf) + Print(CountsValue(counts, order), [])
  {
    order := [];
    if counts.None? {
      w.Put(Null);
      return;
    }
    var m := counts.value;
    w.Put(LBrace);
    ghost var base, done: seq<Member> := w.buf, [];
    var left := m.Keys;
    var first := true;
    while left != {}
      invariant left <= m.Keys && (forall k :: k in m <==> k in left || k in order)
      invariant forall i :: 0 <= i < |order| ==> order[i] !in left && order[i] in m
      invariant forall i, j :: 0 <= i < j < |order| ==> order[i] != order[j]
      invariant first == (done == []) && done == Entries(m, order)
      invariant w.ok == old(w.ok) && (w.ok ==> w.buf == base + Written(done, true))
      decreases |left|
    {
      var k :| k in left;
      left := left - {k};
      done := w.Scalar(first, k, VNum(m[k]), base, done);
      first := false;
      order := order + [k];
    }
    w.Close(old(w.buf), done);
  }

  method CountsMember(w: Writer, key: string, counts: Counts, ghost base: seq<Token>, ghost done: seq<Member>)
    returns (ghost order: seq<string>, ghost now: seq<Member>)
    requires done != []
    requires w.ok ==> w.buf == base + Written(done, true)
    modifies w
    ensures w.ok == old(w.ok) && OrdersCounts(order, counts) && now == done + [Member(key, CountsValue(counts, order))]
    ensures w.ok ==> w.buf == base + Written(now, true)
  {
    w.Prefix(false, key);
    order := EncodeCounts(w, counts);
    PieceFits(base, done, key, CountsValue(counts, order));
    now := done + [Member(key, CountsValue(counts, order))];
  }

  method EncodeStats(w: Writer, s: Stats) returns (ghost files: seq<string>, ghost sizes: seq<string>)
    modifies w
    ensures w.ok == old(w.ok) && OrdersCounts(files, s.files) && OrdersCounts(sizes, s.sizes)
    ensures w.ok ==> w.buf == old(w.buf) + Print(VObj(StatsMembers(s, files, sizes)), [])
  {
    w.Put(LBrace);
    ghost var base, done: seq<Member> := w.buf, [];
    done := w.Scalar(true, "TotalFiles", VNum(s.totalFiles), base, done);
    done := w.Scalar(false, "TotalSizeBytes", VNum(s.totalSize), base, done);
    files, done := CountsMember(w, "FilesByCategory", s.files, base, done);
    sizes, done := CountsMember(w, "SizeByCategory", s.sizes, base, done);
    assert done == StatsMembers(s, files, sizes);
    w.Close(old(w.buf), done);
  }
}
