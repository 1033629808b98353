/** What the encoders of internal/domain/domain_easyjson.go write, and the main results about the JSON form:
    decoding undoes encoding, and members a decoder does not know change nothing. */
module DocumentRoundTrip {
  import opened Wrappers
  import opened JsonLexer
  import opened JsonText
  import opened Documents

  // ---------------------------------------------------------------- what is written

  function OutputMembers(o: Output): seq<Member> {
    [Member("ID", VNum(o.id)), Member("BlockID", VNum(o.blockId)), Member("Position", VNum(o.position)),
     Member("OutputType", VStr(o.outputType)), Member("Content", VStr(o.content)),
     Member("CreatedAt", VStr(o.createdAt))]
  }

  function OutputValues(os: seq<Output>): (vs: seq<Value>)
    ensures |vs| == |os|
  {
    if os == [] then [] else OutputValues(os[..|os| - 1]) + [VObj(OutputMembers(os[|os| - 1]))]
  }

  function OutputsValue(os: Option<seq<Output>>): Value {
    match os
    case None => VNull
    case Some(os) => VArr(OutputValues(os))
  }

  function CountValue(c: Option<int64>): Value {
    match c
    case None => VNull
    case Some(n) => VNum(n)
  }

  function BlockMembers(b: Block): seq<Member> {
    BlockSource(b) + BlockResults(b)
  }

  function BlockSource(b: Block): seq<Member> {
    [Member("ID", VNum(b.id)), Member("NotebookID", VNum(b.notebookId)), Member("Type", VStr(b.kind)),
     Member("Language", VStr(b.language)), Member("Content", VStr(b.content)), Member("Position", VNum(b.position))]
  }

  function BlockResults(b: Block): seq<Member> {
    [Member("ExecutionCount", CountValue(b.executionCount)), Member("Outputs", OutputsValue(b.outputs)),
     Member("CreatedAt", VStr(b.createdAt)), Member("UpdatedAt", VStr(b.updatedAt))]
  }

  function BlockValues(bs: seq<Block>): (vs: seq<Value>)
    ensures |vs| == |bs|
  {
    if bs == [] then [] else BlockValues(bs[..|bs| - 1]) + [VObj(BlockMembers(bs[|bs| - 1]))]
  }

  function BlocksValue(bs: Option<seq<Block>>): Value {
    match bs
    case None => VNull
    case Some(bs) => VArr(BlockValues(bs))
  }

  function NotebookMembers(nb: Notebook): seq<Member> {
    NotebookTitle(nb) + NotebookBody(nb)
  }

  function NotebookTitle(nb: Notebook): seq<Member> {
    [Member("ID", VNum(nb.id)), Member("OwnerID", VNum(nb.ownerId)), Member("OwnerUsername", VStr(nb.ownerUsername)),
     Member("Title", VStr(nb.title)), Member("IsPublic", VBool(nb.isPublic))]
  }

  function NotebookBody(nb: Notebook): seq<Member> {
    [Member("Blocks", BlocksValue(nb.blocks)), Member("CreatedAt", VStr(nb.createdAt)),
     Member("UpdatedAt", VStr(nb.updatedAt)), Member("YourPermission", VStr(nb.yourPermission))]
  }

  /** Encoding succeeds when the time package can write every time. */
  predicate OutputTimed(o: Output, isTime: string -> bool) {
    isTime(o.createdAt)
  }

  predicate BlockTimed(b: Block, isTime: string -> bool) {
    && isTime(b.createdAt) && isTime(b.updatedAt)
    && (b.outputs.Some? ==> forall i :: 0 <= i < |b.outputs.value| ==> OutputTimed(b.outputs.value[i], isTime))
  }

  predicate NotebookTimed(nb: Notebook, isTime: string -> bool) {
    && isTime(nb.createdAt) && isTime(nb.updatedAt)
    && (nb.blocks.Some? ==> forall i :: 0 <= i < |nb.blocks.value| ==> BlockTimed(nb.blocks.value[i], isTime))
  }

  // ---------------------------------------------------------------- decoding undoes encoding

  /** Decoding member by member, through the given values. */
  lemma {:induction false} MeaningStages<T(!new)>(members: seq<Member>, stages: seq<T>,
      sem: (string -> bool, string, Value, T) -> Option<T>, isTime: string -> bool)
    requires |stages| == |members| + 1
    requires forall i :: 0 <= i < |members| ==> sem(isTime, members[i].key, members[i].value, stages[i]) == Some(stages[i + 1])
    ensures Meaning(members, stages[0], sem, isTime) == Some(stages[|members|])
    decreases |members|
  {
    if members != [] {
      assert sem(isTime, members[0].key, members[0].value, stages[0]) == Some(stages[1]);
      MeaningStages(members[1..], stages[1..], sem, isTime);
    }
  }

  lemma MeaningOfFour<T(!new)>(a: Member, b: Member, c: Member, d: Member, s0: T, s1: T, s2: T, s3: T, s4: T,
      sem: (string -> bool, string, Value, T) -> Option<T>, isTime: string -> bool)
    requires sem(isTime, a.key, a.value, s0) == Some(s1) && sem(isTime, b.key, b.value, s1) == Some(s2)
    requires sem(isTime, c.key, c.value, s2) == Some(s3) && sem(isTime, d.key, d.value, s3) == Some(s4)
    ensures Meaning([a, b, c, d], s0, sem, isTime) == Some(s4)
  {
    MeaningStages([a, b, c, d], [s0, s1, s2, s3, s4], sem, isTime);
  }

  lemma OutputReturns(o: Output, out: Output, isTime: string -> bool)
    requires OutputTimed(o, isTime)
    ensures Meaning(OutputMembers(o), out, OutputMeaning, isTime) == Some(o)
  {
    var s1 := out.(id := o.id);
    var s2 := s1.(blockId := o.blockId);
    var s3 := s2.(position := o.position);
    var s4 := s3.(outputType := o.outputType);
    var s5 := s4.(content := o.content);
    var s6 := s5.(createdAt := o.createdAt);
    MeaningStages(OutputMembers(o), [out, s1, s2, s3, s4, s5, s6], OutputMeaning, isTime);
  }

  lemma ItemsMeaningSnoc<E(!new)>(vs: seq<Value>, v: Value, items: seq<E>, zero: E,
      sem: (string -> bool, string, Value, E) -> Option<E>, isTime: string -> bool)
    ensures ItemsMeaning(vs + [v], items, zero, sem, isTime)
      == match ItemsMeaning(vs, items, zero, sem, isTime)
         case None => None
         case Some(mid) => Map(ObjectMeaning(v, zero, sem, isTime), e => mid + [e])
    decreases |vs|
  {
    if vs == [] {
      assert ([] + [v])[1..] == [];
    } else {
      assert (vs + [v])[1..] == vs[1..] + [v];
      var e := ObjectMeaning(vs[0], zero, sem, isTime);
      if e.Some? {
        ItemsMeaningSnoc(vs[1..], v, items + [e.value], zero, sem, isTime);
      }
    }
  }

  lemma {:induction false} OutputsReturn(os: seq<Output>, isTime: string -> bool)
    requires forall i :: 0 <= i < |os| ==> OutputTimed(os[i], isTime)
    ensures ItemsMeaning(OutputValues(os), [], NO_OUTPUT, OutputMeaning, isTime) == Some(os)
  {
    if os != [] {
      var init, o := os[..|os| - 1], os[|os| - 1];
      OutputsReturn(init, isTime);
      OutputReturns(o, NO_OUTPUT, isTime);
      ItemsMeaningSnoc(OutputValues(init), VObj(OutputMembers(o)), [], NO_OUTPUT, OutputMeaning, isTime);
      assert init + [o] == os;
    }
  }

  lemma {:induction false} MeaningConcat<T(!new)>(a: seq<Member>, b: seq<Member>, out: T,
      sem: (string -> bool, string, Value, T) -> Option<T>, isTime: string -> bool)
    ensures Meaning(a + b, out, sem, isTime)
      == match Meaning(a, out, sem, isTime)
         case None => None
         case Some(mid) => Meaning(b, mid, sem, isTime)
    decreases |a|
  {
    if a == [] {
      assert a + b == b;
    } else {
      assert (a + b)[1..] == a[1..] + b;
      var next := sem(isTime, a[0].key, a[0].value, out);
      if next.Some? {
        MeaningConcat(a[1..], b, next.value, sem, isTime);
      }
    }
  }

  lemma BlockSourceReturns(b: Block, out: Block, isTime: string -> bool) returns (mid: Block)
    ensures Meaning(BlockSource(b), out, BlockMeaning, isTime) == Some(mid)
    ensures mid == b.(executionCount := out.executionCount, outputs := out.outputs,
                      createdAt := out.createdAt, updatedAt := out.updatedAt)
  {
    var s1 := out.(id := b.id);
    var s2 := s1.(notebookId := b.notebookId);
    var s3 := s2.(kind := b.kind);
    var s4 := s3.(language := b.language);
    var s5 := s4.(content := b.content);
    mid := s5.(position := b.position);
    MeaningStages(BlockSource(b), [out, s1, s2, s3, s4, s5, mid], BlockMeaning, isTime);
  }

  lemma OutputsStage(b: Block, out: Block, isTime: string -> bool)
    requires BlockTimed(b, isTime)
    ensures BlockMeaning(isTime, "Outputs", OutputsValue(b.outputs), out) == Some(out.(outputs := b.outputs))
  {
    if b.outputs.Some? {
      OutputsReturn(b.outputs.value, isTime);
    }
  }

  lemma BlockResultsReturn(b: Block, mid: Block, isTime: string -> bool)
    requires BlockTimed(b, isTime)
    requires b == mid.(executionCount := b.executionCount, outputs := b.outputs, createdAt := b.createdAt,
                       updatedAt := b.updatedAt)
    ensures Meaning(BlockResults(b), mid, BlockMeaning, isTime) == Some(b)
  {
    var s1 := mid.(executionCount := b.executionCount);
    var s2 := s1.(outputs := b.outputs);
    OutputsStage(b, s1, isTime);
    var s3 := s2.(createdAt := b.createdAt);
    var ms := BlockResults(b);
    MeaningOfFour(ms[0], ms[1], ms[2], ms[3], mid, s1, s2, s3, b, BlockMeaning, isTime);
  }

  lemma BlockReturns(b: Block, out: Block, isTime: string -> bool)
    requires BlockTimed(b, isTime)
    ensures Meaning(BlockMembers(b), out, BlockMeaning, isTime) == Some(b)
  {
    var mid := BlockSourceReturns(b, out, isTime);
    BlockResultsReturn(b, mid, isTime);
    MeaningConcat(BlockSource(b), BlockResults(b), out, BlockMeaning, isTime);
  }

  lemma {:induction false} BlocksReturn(bs: seq<Block>, isTime: string -> bool)
    requires forall i :: 0 <= i < |bs| ==> BlockTimed(bs[i], isTime)
    ensures ItemsMeaning(BlockValues(bs), [], NO_BLOCK, BlockMeaning, isTime) == Some(bs)
  {
    if bs != [] {
      var init, b := bs[..|bs| - 1], bs[|bs| - 1];
      BlocksReturn(init, isTime);
      BlockReturns(b, NO_BLOCK, isTime);
      ItemsMeaningSnoc(BlockValues(init), VObj(BlockMembers(b)), [], NO_BLOCK, BlockMeaning, isTime);
      assert init + [b] == bs;
    }
  }

  lemma NotebookTitleReturns(nb: Notebook, out: Notebook, isTime: string -> bool) returns (mid: Notebook)
    ensures Meaning(NotebookTitle(nb), out, NotebookMeaning, isTime) == Some(mid)
    ensures mid == nb.(blocks := out.blocks, createdAt := out.createdAt, updatedAt := out.updatedAt,
                       yourPermission := out.yourPermission)
  {
    var s1 := out.(id := nb.id);
    var s2 := s1.(ownerId := nb.ownerId);
    var s3 := s2.(ownerUsername := nb.ownerUsername);
    var s4 := s3.(title := nb.title);
    mid := s4.(isPublic := nb.isPublic);
    MeaningStages(NotebookTitle(nb), [out, s1, s2, s3, s4, mid], NotebookMeaning, isTime);
  }

  lemma BlocksStage(nb: Notebook, out: Notebook, isTime: string -> bool)
    requires NotebookTimed(nb, isTime)
    ensures NotebookMeaning(isTime, "Blocks", BlocksValue(nb.blocks), out) == Some(out.(blocks := nb.blocks))
  {
    if nb.blocks.Some? {
      BlocksReturn(nb.blocks.value, isTime);
    }
  }

  lemma NotebookBodyReturns(nb: Notebook, mid: Notebook, isTime: string -> bool)
    requires NotebookTimed(nb, isTime)
    requires nb == mid.(blocks := nb.blocks, createdAt := nb.createdAt, updatedAt := nb.updatedAt,
                        yourPermission := nb.yourPermission)
    ensures Meaning(NotebookBody(nb), mid, NotebookMeaning, isTime) == Some(nb)
  {
    var s1 := mid.(blocks := nb.blocks);
    BlocksStage(nb, mid, isTime);
    var s2 := s1.(createdAt := nb.createdAt);
    var s3 := s2.(updatedAt := nb.updatedAt);
    var ms := NotebookBody(nb);
    MeaningOfFour(ms[0], ms[1], ms[2], ms[3], mid, s1, s2, s3, nb, NotebookMeaning, isTime);
  }

  lemma NotebookReturns(nb: Notebook, out: Notebook, isTime: string -> bool)
    requires NotebookTimed(nb, isTime)
    ensures Meaning(NotebookMembers(nb), out, NotebookMeaning, isTime) == Some(nb)
  {
    var mid := NotebookTitleReturns(nb, out, isTime);
    NotebookBodyReturns(nb, mid, isTime);
    MeaningConcat(NotebookTitle(nb), NotebookBody(nb), out, NotebookMeaning, isTime);
  }

  /** Inside a larger text, decoding what was encoded returns the notebook and leaves exactly the remainder. */
  lemma NotebookRoundTrip(l: Lex, nb: Notebook, more: seq<Token>, out: Notebook)
    requires NotebookTimed(nb, l.isTime)
    requires l.ok && l.token.None? && l.want == NoSep && !l.start
    requires l.rest == Print(VObj(NotebookMembers(nb)), more)
    ensures DecodeNotebook(l, out).1 == nb
    ensures Settled(DecodeNotebook(l, out).0, more, l.isTime)
  {
    var v := VObj(NotebookMembers(nb));
    PrintHead(v, more);
    NotebookMeans(l.isTime);
    ObjectMeans(l, v, more, out, NotebookField, NotebookMeaning, l.isTime);
    NotebookReturns(nb, out, l.isTime);
  }

  /** As a whole document, with nothing after it. */
  lemma NotebookDocument(nb: Notebook, more: seq<Token>, out: Notebook, isTime: string -> bool)
    requires NotebookTimed(nb, isTime)
    ensures var r := DecodeNotebook(Begin(Print(VObj(NotebookMembers(nb)), more), isTime), out);
            r.1 == nb && (r.0.ok <==> more == [])
  {
    NotebookMeans(isTime);
    DocumentMeans(VObj(NotebookMembers(nb)), more, out, NotebookField, NotebookMeaning, isTime);
    NotebookReturns(nb, out, isTime);
  }

  // ---------------------------------------------------------------- maps in any order

  /** An order in which iteration may visit the map: every key, each once. */
  ghost predicate Orders(order: seq<string>, m: map<string, int64>) {
    && (forall k :: k in m <==> k in order)
    && (forall i, j :: 0 <= i < j < |order| ==> order[i] != order[j])
  }

  function Entries(m: map<string, int64>, order: seq<string>): seq<Member>
    requires forall i :: 0 <= i < |order| ==> order[i] in m
  {
    seq(|order|, i requires 0 <= i < |order| => Member(order[i], VNum(m[order[i]])))
  }

  function CountsValue(counts: Counts, order: seq<string>): Value
    requires counts.Some? ==> forall i :: 0 <= i < |order| ==> order[i] in counts.value
  {
    match counts
    case None => VNull
    case Some(m) => VObj(Entries(m, order))
  }

  ghost predicate OrdersCounts(order: seq<string>, counts: Counts) {
    counts.Some? ==> Orders(order, counts.value)
  }

  function StatsMembers(s: Stats, files: seq<string>, sizes: seq<string>): seq<Member>
    requires s.files.Some? ==> forall i :: 0 <= i < |files| ==> files[i] in s.files.value
    requires s.sizes.Some? ==> forall i :: 0 <= i < |sizes| ==> sizes[i] in s.sizes.value
  {
    [Member("TotalFiles", VNum(s.totalFiles)), Member("TotalSizeBytes", VNum(s.totalSize)),
     Member("FilesByCategory", CountsValue(s.files, files)), Member("SizeByCategory", CountsValue(s.sizes, sizes))]
  }

  lemma {:induction false} EntriesReturn(m: map<string, int64>, order: seq<string>, built: map<string, int64>,
                                         isTime: string -> bool)
    requires forall i :: 0 <= i < |order| ==> order[i] in m
    requires forall k :: k in built ==> k in m && built[k] == m[k]
    requires forall k :: k in m ==> k in built || k in order
    ensures Meaning(Entries(m, order), built, EntryMeaning, isTime) == Some(m)
    decreases |order|
  {
    if order == [] {
      assert built == m;
    } else {
      assert Entries(m, order)[1..] == Entries(m, order[1..]);
      EntriesReturn(m, order[1..], built[order[0] := m[order[0]]], isTime);
    }
  }

  /** A nil map is written as null, and null keeps what was there. */
  function Overlaid(counts: Counts, held: Counts): Counts {
    if counts.Some? then counts else held
  }

  lemma CountsReturn(counts: Counts, order: seq<string>, held: Counts, isTime: string -> bool)
    requires OrdersCounts(order, counts)
    ensures CountsMeaning(isTime, CountsValue(counts, order), held) == Some(Overlaid(counts, held))
  {
    if counts.Some? {
      EntriesReturn(counts.value, order, map[], isTime);
    }
  }

  lemma StatsReturn(s: Stats, files: seq<string>, sizes: seq<string>, out: Stats, isTime: string -> bool)
    requires OrdersCounts(files, s.files) && OrdersCounts(sizes, s.sizes)
    ensures Meaning(StatsMembers(s, files, sizes), out, StatsMeaning, isTime)
         == Some(s.(files := Overlaid(s.files, out.files), sizes := Overlaid(s.sizes, out.sizes)))
  {
    CountsReturn(s.files, files, out.files, isTime);
    CountsReturn(s.sizes, sizes, out.sizes, isTime);
    var s1 := out.(totalFiles := s.totalFiles);
    var s2 := s1.(totalSize := s.totalSize);
    var s3 := s2.(files := Overlaid(s.files, out.files));
    var s4 := s3.(sizes := Overlaid(s.sizes, out.sizes));
    var ms := StatsMembers(s, files, sizes);
    MeaningOfFour(ms[0], ms[1], ms[2], ms[3], out, s1, s2, s3, s4, StatsMeaning, isTime);
  }

  /** Decoding into statistics that may already hold maps: every encoded map replaces what was there, a nil map keeps
      it.  So the round trip holds exactly when nothing stale is there to be kept. */
  lemma StaleCountsStay(l: Lex, s: Stats, files: seq<string>, sizes: seq<string>, more: seq<Token>, out: Stats)
    requires OrdersCounts(files, s.files) && OrdersCounts(sizes, s.sizes)
    requires l.ok && l.token.None? && l.want == NoSep && !l.start
    requires l.rest == Print(VObj(StatsMembers(s, files, sizes)), more)
    ensures Settled(DecodeStats(l, out).0, more, l.isTime)
    ensures DecodeStats(l, out).1 == s.(files := Overlaid(s.files, out.files), sizes := Overlaid(s.sizes, out.sizes))
    ensures DecodeStats(l, out).1 == s
        <==> (s.files.Some? || out.files.None?) && (s.sizes.Some? || out.sizes.None?)
  {
    var v := VObj(StatsMembers(s, files, sizes));
    PrintHead(v, more);
    StatsMeans(l.isTime);
    ObjectMeans(l, v, more, out, StatsField, StatsMeaning, l.isTime);
    StatsReturn(s, files, sizes, out, l.isTime);
  }

  /** In particular, into zero statistics both maps survive whatever order they were iterated in, nil as nil and empty
      as empty. */
  lemma StatsRoundTrip(l: Lex, s: Stats, files: seq<string>, sizes: seq<string>, more: seq<Token>)
    requires OrdersCounts(files, s.files) && OrdersCounts(sizes, s.sizes)
    requires l.ok && l.token.None? && l.want == NoSep && !l.start
    requires l.rest == Print(VObj(StatsMembers(s, files, sizes)), more)
    ensures DecodeStats(l, NO_STATS).1 == s
    ensures Settled(DecodeStats(l, NO_STATS).0, more, l.isTime)
  {
    StaleCountsStay(l, s, files, sizes, more, NO_STATS);
  }

  lemma StatsDocument(s: Stats, files: seq<string>, sizes: seq<string>, more: seq<Token>, isTime: string -> bool)
    requires OrdersCounts(files, s.files) && OrdersCounts(sizes, s.sizes)
    ensures var r := DecodeStats(Begin(Print(VObj(StatsMembers(s, files, sizes)), more), isTime), NO_STATS);
            r.1 == s && (r.0.ok <==> more == [])
  {
    StatsMeans(isTime);
    DocumentMeans(VObj(StatsMembers(s, files, sizes)), more, NO_STATS, StatsField, StatsMeaning, isTime);
    StatsReturn(s, files, sizes, NO_STATS, isTime);
  }

  // ---------------------------------------------------------------- unknown members

  function Known(members: seq<Member>, keys: set<string>): seq<Member> {
    if members == [] then []
    else (if members[0].key in keys then [members[0]] else []) + Known(members[1..], keys)
  }

  lemma {:induction false} MeaningOfKnown<T(!new)>(members: seq<Member>, keys: set<string>, out: T,
      sem: (string -> bool, string, Value, T) -> Option<T>, isTime: string -> bool)
    requires forall key, v, o :: key !in keys ==> sem(isTime, key, v, o) == Some(o)
    ensures Meaning(members, out, sem, isTime) == Meaning(Known(members, keys), out, sem, isTime)
    decreases |members|
  {
    if members != [] {
      var m, tail := members[0], Known(members[1..], keys);
      var next := sem(isTime, m.key, m.value, out);
      if next.Some? {
        MeaningOfKnown(members[1..], keys, next.value, sem, isTime);
      }
      if m.key in keys {
        assert ([m] + tail)[1..] == tail;
      } else {
        assert [] + tail == tail;
      }
    }
  }

  const STATS_KEYS := {"TotalFiles", "TotalSizeBytes", "FilesByCategory", "SizeByCategory"}
  const NOTEBOOK_KEYS := {"ID", "OwnerID", "OwnerUsername", "Title", "IsPublic", "Blocks", "CreatedAt", "UpdatedAt",
                          "YourPermission"}

  lemma IgnoresUnknown<T(!new)>(a: seq<Member>, b: seq<Member>, keys: set<string>, out: T,
      field: (string, Lex, T) -> (Lex, T), sem: (string -> bool, string, Value, T) -> Option<T>, isTime: string -> bool)
    requires Shrinks(field) && Means(field, sem, isTime)
    requires forall key, v, o :: key !in keys ==> sem(isTime, key, v, o) == Some(o)
    requires Known(a, keys) == Known(b, keys)
    ensures SameResult(Object(Begin(Print(VObj(a), []), isTime), out, field),
                       Object(Begin(Print(VObj(b), []), isTime), out, field))
  {
    DocumentMeans(VObj(a), [], out, field, sem, isTime);
    DocumentMeans(VObj(b), [], out, field, sem, isTime);
    MeaningOfKnown(a, keys, out, sem, isTime);
    MeaningOfKnown(b, keys, out, sem, isTime);
  }

  ghost predicate SameResult<T(!new)>(a: (Lex, T), b: (Lex, T)) {
    (a.0.ok <==> b.0.ok) && (a.0.ok ==> a.1 == b.1)
  }

  /** Two objects that differ only in members the decoder does not know, wherever those stand and whatever
      they hold, both fail or both decode, to the same statistics. */
  lemma StatsIgnoresUnknown(a: seq<Member>, b: seq<Member>, out: Stats, isTime: string -> bool)
    requires Known(a, STATS_KEYS) == Known(b, STATS_KEYS)
    ensures SameResult(DecodeStats(Begin(Print(VObj(a), []), isTime), out),
                       DecodeStats(Begin(Print(VObj(b), []), isTime), out))
  {
    StatsMeans(isTime);
    IgnoresUnknown(a, b, STATS_KEYS, out, StatsField, StatsMeaning, isTime);
  }

  lemma NotebookSkips(isTime: string -> bool, key: string, v: Value, o: Notebook)
    requires key !in NOTEBOOK_KEYS
    ensures NotebookMeaning(isTime, key, v, o) == Some(o)
  {}

  lemma NotebookIgnoresUnknown(a: seq<Member>, b: seq<Member>, out: Notebook, isTime: string -> bool)
    requires Known(a, NOTEBOOK_KEYS) == Known(b, NOTEBOOK_KEYS)
    ensures SameResult(DecodeNotebook(Begin(Print(VObj(a), []), isTime), out),
                       DecodeNotebook(Begin(Print(VObj(b), []), isTime), out))
  {
    NotebookMeans(isTime);
    forall key, v, o | key !in NOTEBOOK_KEYS ensures NotebookMeaning(isTime, key, v, o) == Some(o) {
      NotebookSkips(isTime, key, v, o);
    }
    IgnoresUnknown(a, b, NOTEBOOK_KEYS, out, NotebookField, NotebookMeaning, isTime);
  }
}
