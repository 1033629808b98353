/** The JSON form of notebooks and storage statistics (internal/domain/domain_easyjson.go): what the encoders
    write, what each decoder does with each key, what a JSON value means for each type, and the proofs that the
    decoders mean it and that decoding undoes encoding.  Times are their texts. */
module Documents {
  import opened Wrappers
  import opened JsonLexer
  import opened JsonText

  const ZERO_TIME := "0001-01-01T00:00:00Z"

  datatype Output = Output(id: int64, blockId: int64, position: int64, outputType: string, content: string,
                           createdAt: string)
  const NO_OUTPUT := Output(0, 0, 0, "", "", ZERO_TIME)

  // A nil slice or pointer is None.
  datatype Block = Block(id: int64, notebookId: int64, kind: string, language: string, content: string,
                         position: int64, executionCount: Option<int64>, outputs: Option<seq<Output>>,
                         createdAt: string, updatedAt: string)
  const NO_BLOCK := Block(0, 0, "", "", "", 0, None, None, ZERO_TIME, ZERO_TIME)

  datatype Notebook = Notebook(id: int64, ownerId: int64, ownerUsername: string, title: string, isPublic: bool,
                               blocks: Option<seq<Block>>, createdAt: string, updatedAt: string,
                               yourPermission: string)
  const NO_NOTEBOOK := Notebook(0, 0, "", "", false, None, ZERO_TIME, ZERO_TIME, "")

  type Counts = Option<map<string, int64>>
  datatype Stats = Stats(totalFiles: int64, totalSize: int64, files: Counts, sizes: Counts)
  const NO_STATS := Stats(0, 0, None, None)

  // ---------------------------------------------------------------- scalar fields

  function IntField(l: Lex, current: int64): (r: (Lex, int64))
    ensures Size(r.0) <= Size(l)
  {
    if IsNull(l) then (Skip(l), current) else ReadInt(Fetch(l))
  }

  function TextField(l: Lex, current: string): (r: (Lex, string))
    ensures Size(r.0) <= Size(l)
  {
    if IsNull(l) then (Skip(l), current) else ReadText(Fetch(l))
  }

  function BoolField(l: Lex, current: bool): (r: (Lex, bool))
    ensures Size(r.0) <= Size(l)
  {
    if IsNull(l) then (Skip(l), current) else ReadBool(Fetch(l))
  }

  function TimeField(l: Lex, current: string): (r: (Lex, string))
    ensures Size(r.0) <= Size(l)
  {
    if IsNull(l) then (Skip(l), current) else ReadTime(Fetch(l), current)
  }

  function CountField(l: Lex): (r: (Lex, Option<int64>))
    ensures Size(r.0) <= Size(l)
  {
    if IsNull(l) then (Skip(l), None) else
    var (l1, n) := ReadInt(Fetch(l));
    (l1, Some(n))
  }

  function IntMeaning(v: Value, current: int64): Option<int64> {
    match v
    case VNull => Some(current)
    case VNum(n) => if InRange(n) then Some(n) else None
    case _ => None
  }

  function TextMeaning(v: Value, current: string): Option<string> {
    match v
    case VNull => Some(current)
    case VStr(s) => Some(s)
    case _ => None
  }

  function BoolMeaning(v: Value, current: bool): Option<bool> {
    match v
    case VNull => Some(current)
    case VBool(b) => Some(b)
    case _ => None
  }

  function TimeMeaning(v: Value, current: string, isTime: string -> bool): Option<string> {
    match v
    case VNull => Some(current)
    case VStr(s) => if isTime(s) then Some(s) else None
    case _ => None
  }

  function CountMeaning(v: Value): Option<Option<int64>> {
    match v
    case VNull => Some(None)
    case VNum(n) => if InRange(n) then Some(Some(n)) else None
    case _ => None
  }

  lemma IntMeans(l: Lex, v: Value, more: seq<Token>, current: int64, isTime: string -> bool)
    requires Entered(Fetch(l), v, more, isTime)
    ensures Agrees(IntField(l, current), more, IntMeaning(v, current), isTime)
  {
    AfterOpening(Fetch(l), v, more, isTime);
  }

  lemma TextMeans(l: Lex, v: Value, more: seq<Token>, current: string, isTime: string -> bool)
    requires Entered(Fetch(l), v, more, isTime)
    ensures Agrees(TextField(l, current), more, TextMeaning(v, current), isTime)
  {
    AfterOpening(Fetch(l), v, more, isTime);
  }

  lemma BoolMeans(l: Lex, v: Value, more: seq<Token>, current: bool, isTime: string -> bool)
    requires Entered(Fetch(l), v, more, isTime)
    ensures Agrees(BoolField(l, current), more, BoolMeaning(v, current), isTime)
  {
    AfterOpening(Fetch(l), v, more, isTime);
  }

  lemma TimeMeans(l: Lex, v: Value, more: seq<Token>, current: string, isTime: string -> bool)
    requires Entered(Fetch(l), v, more, isTime)
    ensures Agrees(TimeField(l, current), more, TimeMeaning(v, current, isTime), isTime)
  {
    AfterOpening(Fetch(l), v, more, isTime);
  }

  lemma CountMeans(l: Lex, v: Value, more: seq<Token>, isTime: string -> bool)
    requires Entered(Fetch(l), v, more, isTime)
    ensures Agrees(CountField(l), more, CountMeaning(v), isTime)
  {
    AfterOpening(Fetch(l), v, more, isTime);
  }

  // ---------------------------------------------------------------- block outputs

  function OutputField(key: string, l: Lex, out: Output): (r: (Lex, Output))
    ensures Size(r.0) <= Size(l)
  {
    if key == "ID" then var (l1, n) := IntField(l, out.id); (l1, out.(id := n))
    else if key == "BlockID" then var (l1, n) := IntField(l, out.blockId); (l1, out.(blockId := n))
    else if key == "Position" then var (l1, n) := IntField(l, out.position); (l1, out.(position := n))
    else if key == "OutputType" then var (l1, s) := TextField(l, out.outputType); (l1, out.(outputType := s))
    else if key == "Content" then var (l1, s) := TextField(l, out.content); (l1, out.(content := s))
    else if key == "CreatedAt" then var (l1, s) := TimeField(l, out.createdAt); (l1, out.(createdAt := s))
    else (SkipRecursive(l), out)
  }

  function OutputMeaning(isTime: string -> bool, key: string, v: Value, out: Output): Option<Output> {
    if key == "ID" then Map(IntMeaning(v, out.id), n => out.(id := n))
    else if key == "BlockID" then Map(IntMeaning(v, out.blockId), n => out.(blockId := n))
    else if key == "Position" then Map(IntMeaning(v, out.position), n => out.(position := n))
    else if key == "OutputType" then Map(TextMeaning(v, out.outputType), s => out.(outputType := s))
    else if key == "Content" then Map(TextMeaning(v, out.content), s => out.(content := s))
    else if key == "CreatedAt" then Map(TimeMeaning(v, out.createdAt, isTime), s => out.(createdAt := s))
    else Some(out)
  }

  function Map<A, B>(o: Option<A>, f: A -> B): Option<B> {
    match o
    case None => None
    case Some(a) => Some(f(a))
  }

  function DecodeOutput(l: Lex, out: Output): (r: (Lex, Output))
    ensures if l.ok then Size(r.0) < Size(l) else !r.0.ok
  {
    Object(l, out, OutputField)
  }

  lemma OutputFieldMeans(key: string, v: Value, out: Output, more: seq<Token>, isTime: string -> bool)
    ensures Agrees(OutputField(key, AtColon(Print(v, more), isTime), out), more, OutputMeaning(isTime, key, v, out), isTime)
  {
    var l := AtColon(Print(v, more), isTime);
    EntersAtColon(v, more, isTime);
    if key == "ID" {
      IntMeans(l, v, more, out.id, isTime);
    } else if key == "BlockID" {
      IntMeans(l, v, more, out.blockId, isTime);
    } else if key == "Position" {
      IntMeans(l, v, more, out.position, isTime);
    } else if key == "OutputType" {
      TextMeans(l, v, more, out.outputType, isTime);
    } else if key == "Content" {
      TextMeans(l, v, more, out.content, isTime);
    } else if key == "CreatedAt" {
      TimeMeans(l, v, more, out.createdAt, isTime);
    } else {
      SkipMeans(l, v, more, isTime);
    }
  }

  lemma OutputMeans(isTime: string -> bool)
    ensures Shrinks(OutputField) && Means(OutputField, OutputMeaning, isTime)
  {
    forall key, v, out, more
      ensures Agrees(OutputField(key, AtColon(Print(v, more), isTime), out), more, OutputMeaning(isTime, key, v, out), isTime)
    {
      OutputFieldMeans(key, v, out, more, isTime);
    }
  }

  // ---------------------------------------------------------------- blocks

  function BlockField(key: string, l: Lex, out: Block): (r: (Lex, Block))
    ensures Size(r.0) <= Size(l)
  {
    if key == "ID" then var (l1, n) := IntField(l, out.id); (l1, out.(id := n))
    else if key == "NotebookID" then var (l1, n) := IntField(l, out.notebookId); (l1, out.(notebookId := n))
    else if key == "Type" then var (l1, s) := TextField(l, out.kind); (l1, out.(kind := s))
    else if key == "Language" then var (l1, s) := TextField(l, out.language); (l1, out.(language := s))
    else if key == "Content" then var (l1, s) := TextField(l, out.content); (l1, out.(content := s))
    else if key == "Position" then var (l1, n) := IntField(l, out.position); (l1, out.(position := n))
    else if key == "ExecutionCount" then var (l1, c) := CountField(l); (l1, out.(executionCount := c))
    else if key == "Outputs" then var (l1, os) := OutputsField(l); (l1, out.(outputs := os))
    else if key == "CreatedAt" then var (l1, s) := TimeField(l, out.createdAt); (l1, out.(createdAt := s))
    else if key == "UpdatedAt" then var (l1, s) := TimeField(l, out.updatedAt); (l1, out.(updatedAt := s))
    else (SkipRecursive(l), out)
  }

  function OutputsField(l: Lex): (r: (Lex, Option<seq<Output>>))
    ensures Size(r.0) <= Size(l)
  {
    Slice(l, OutputField, NO_OUTPUT)
  }

  function BlockMeaning(isTime: string -> bool, key: string, v: Value, out: Block): Option<Block> {
    if key == "ID" then Map(IntMeaning(v, out.id), n => out.(id := n))
    else if key == "NotebookID" then Map(IntMeaning(v, out.notebookId), n => out.(notebookId := n))
    else if key == "Type" then Map(TextMeaning(v, out.kind), s => out.(kind := s))
    else if key == "Language" then Map(TextMeaning(v, out.language), s => out.(language := s))
    else if key == "Content" then Map(TextMeaning(v, out.content), s => out.(content := s))
    else if key == "Position" then Map(IntMeaning(v, out.position), n => out.(position := n))
    else if key == "ExecutionCount" then Map(CountMeaning(v), c => out.(executionCount := c))
    else if key == "Outputs" then Map(SliceMeaning(v, NO_OUTPUT, OutputMeaning, isTime), os => out.(outputs := os))
    else if key == "CreatedAt" then Map(TimeMeaning(v, out.createdAt, isTime), s => out.(createdAt := s))
    else if key == "UpdatedAt" then Map(TimeMeaning(v, out.updatedAt, isTime), s => out.(updatedAt := s))
    else Some(out)
  }

  lemma OutputsFieldMeans(l: Lex, v: Value, more: seq<Token>, isTime: string -> bool)
    requires Entered(Fetch(l), v, more, isTime)
    ensures Agrees(OutputsField(l), more, SliceMeaning(v, NO_OUTPUT, OutputMeaning, isTime), isTime)
  {
    OutputMeans(isTime);
    SliceMeans(l, v, more, OutputField, NO_OUTPUT, OutputMeaning, isTime);
  }

  function DecodeBlock(l: Lex, out: Block): (r: (Lex, Block))
    ensures if l.ok then Size(r.0) < Size(l) else !r.0.ok
  {
    Object(l, out, BlockField)
  }

  lemma BlockFieldMeans(key: string, v: Value, out: Block, more: seq<Token>, isTime: string -> bool)
    ensures Agrees(BlockField(key, AtColon(Print(v, more), isTime), out), more, BlockMeaning(isTime, key, v, out), isTime)
  {
    var l := AtColon(Print(v, more), isTime);
    EntersAtColon(v, more, isTime);
    if key == "ID" {
      IntMeans(l, v, more, out.id, isTime);
    } else if key == "NotebookID" {
      IntMeans(l, v, more, out.notebookId, isTime);
    } else if key == "Type" {
      TextMeans(l, v, more, out.kind, isTime);
    } else if key == "Language" {
      TextMeans(l, v, more, out.language, isTime);
    } else if key == "Content" {
      TextMeans(l, v, more, out.content, isTime);
    } else if key == "Position" {
      IntMeans(l, v, more, out.position, isTime);
    } else if key == "ExecutionCount" {
      CountMeans(l, v, more, isTime);
    } else if key == "Outputs" {
      OutputsFieldMeans(l, v, more, isTime);
    } else if key == "CreatedAt" {
      TimeMeans(l, v, more, out.createdAt, isTime);
    } else if key == "UpdatedAt" {
      TimeMeans(l, v, more, out.updatedAt, isTime);
    } else {
      SkipMeans(l, v, more, isTime);
    }
  }

  lemma BlockMeans(isTime: string -> bool)
    ensures Shrinks(BlockField) && Means(BlockField, BlockMeaning, isTime)
  {
    forall key, v, out, more
      ensures Agrees(BlockField(key, AtColon(Print(v, more), isTime), out), more, BlockMeaning(isTime, key, v, out), isTime)
    {
      BlockFieldMeans(key, v, out, more, isTime);
    }
  }

  // ---------------------------------------------------------------- notebooks

  function NotebookField(key: string, l: Lex, out: Notebook): (r: (Lex, Notebook))
    ensures Size(r.0) <= Size(l)
  {
    if key == "ID" then var (l1, n) := IntField(l, out.id); (l1, out.(id := n))
    else if key == "OwnerID" then var (l1, n) := IntField(l, out.ownerId); (l1, out.(ownerId := n))
    else if key == "OwnerUsername" then var (l1, s) := TextField(l, out.ownerUsername); (l1, out.(ownerUsername := s))
    else if key == "Title" then var (l1, s) := TextField(l, out.title); (l1, out.(title := s))
    else if key == "IsPublic" then var (l1, b) := BoolField(l, out.isPublic); (l1, out.(isPublic := b))
    else if key == "Blocks" then var (l1, bs) := BlocksField(l); (l1, out.(blocks := bs))
    else if key == "CreatedAt" then var (l1, s) := TimeField(l, out.createdAt); (l1, out.(createdAt := s))
    else if key == "UpdatedAt" then var (l1, s) := TimeField(l, out.updatedAt); (l1, out.(updatedAt := s))
    else if key == "YourPermission" then var (l1, s) := TextField(l, out.yourPermission); (l1, out.(yourPermission := s))
    else (SkipRecursive(l), out)
  }

  function BlocksField(l: Lex): (r: (Lex, Option<seq<Block>>))
    ensures Size(r.0) <= Size(l)
  {
    Slice(l, BlockField, NO_BLOCK)
  }

  function NotebookMeaning(isTime: string -> bool, key: string, v: Value, out: Notebook): Option<Notebook> {
    if key == "ID" then Map(IntMeaning(v, out.id), n => out.(id := n))
    else if key == "OwnerID" then Map(IntMeaning(v, out.ownerId), n => out.(ownerId := n))
    else if key == "OwnerUsername" then Map(TextMeaning(v, out.ownerUsername), s => out.(ownerUsername := s))
    else if key == "Title" then Map(TextMeaning(v, out.title), s => out.(title := s))
    else if key == "IsPublic" then Map(BoolMeaning(v, out.isPublic), b => out.(isPublic := b))
    else if key == "Blocks" then Map(SliceMeaning(v, NO_BLOCK, BlockMeaning, isTime), bs => out.(blocks := bs))
    else if key == "CreatedAt" then Map(TimeMeaning(v, out.createdAt, isTime), s => out.(createdAt := s))
    else if key == "UpdatedAt" then Map(TimeMeaning(v, out.updatedAt, isTime), s => out.(updatedAt := s))
    else if key == "YourPermission" then Map(TextMeaning(v, out.yourPermission), s => out.(yourPermission := s))
    else Some(out)
  }

  lemma BlocksFieldMeans(l: Lex, v: Value, more: seq<Token>, isTime: string -> bool)
    requires Entered(Fetch(l), v, more, isTime)
    ensures Agrees(BlocksField(l), more, SliceMeaning(v, NO_BLOCK, BlockMeaning, isTime), isTime)
  {
    BlockMeans(isTime);
    SliceMeans(l, v, more, BlockField, NO_BLOCK, BlockMeaning, isTime);
  }

  function DecodeNotebook(l: Lex, out: Notebook): (r: (Lex, Notebook))
    ensures if l.ok then Size(r.0) < Size(l) else !r.0.ok
  {
    Object(l, out, NotebookField)
  }

  lemma NotebookFieldMeans(key: string, v: Value, out: Notebook, more: seq<Token>, isTime: string -> bool)
    ensures Agrees(NotebookField(key, AtColon(Print(v, more), isTime), out), more, NotebookMeaning(isTime, key, v, out), isTime)
  {
    var l := AtColon(Print(v, more), isTime);
    EntersAtColon(v, more, isTime);
    if key == "ID" {
      IntMeans(l, v, more, out.id, isTime);
    } else if key == "OwnerID" {
      IntMeans(l, v, more, out.ownerId, isTime);
    } else if key == "OwnerUsername" {
      TextMeans(l, v, more, out.ownerUsername, isTime);
    } else if key == "Title" {
      TextMeans(l, v, more, out.title, isTime);
    } else if key == "IsPublic" {
      BoolMeans(l, v, more, out.isPublic, isTime);
    } else if key == "Blocks" {
      BlocksFieldMeans(l, v, more, isTime);
    } else if key == "CreatedAt" {
      TimeMeans(l, v, more, out.createdAt, isTime);
    } else if key == "UpdatedAt" {
      TimeMeans(l, v, more, out.updatedAt, isTime);
    } else if key == "YourPermission" {
      TextMeans(l, v, more, out.yourPermission, isTime);
    } else {
      SkipMeans(l, v, more, isTime);
    }
  }

  lemma NotebookMeans(isTime: string -> bool)
    ensures Shrinks(NotebookField) && Means(NotebookField, NotebookMeaning, isTime)
  {
    forall key, v, out, more
      ensures Agrees(NotebookField(key, AtColon(Print(v, more), isTime), out), more,
                     NotebookMeaning(isTime, key, v, out), isTime)
    {
      NotebookFieldMeans(key, v, out, more, isTime);
    }
  }

  // ---------------------------------------------------------------- storage statistics

  /** One entry of a map under construction; a null value counts as zero. */
  function Entry(key: string, l: Lex, m: map<string, int64>): (r: (Lex, map<string, int64>))
    ensures Size(r.0) <= Size(l)
  {
    var (l1, n) := IntField(l, 0);
    (l1, m[key := n])
  }

  /** Null leaves the map as it was; an object replaces it by a new one. */
  function CountsField(l: Lex, current: Counts): (r: (Lex, Counts))
    ensures Size(r.0) <= Size(l)
  {
    if IsNull(l) then (Skip(l), current)
    else
      var (l1, m) := Members(Delim(Fetch(l), LBrace), map[], Entry);
      (Delim(l1, RBrace), Some(m))
  }

  function StatsField(key: string, l: Lex, out: Stats): (r: (Lex, Stats))
    ensures Size(r.0) <= Size(l)
  {
    if key == "TotalFiles" then var (l1, n) := IntField(l, out.totalFiles); (l1, out.(totalFiles := n))
    else if key == "TotalSizeBytes" then var (l1, n) := IntField(l, out.totalSize); (l1, out.(totalSize := n))
    else if key == "FilesByCategory" then var (l1, m) := CountsField(l, out.files); (l1, out.(files := m))
    else if key == "SizeByCategory" then var (l1, m) := CountsField(l, out.sizes); (l1, out.(sizes := m))
    else (SkipRecursive(l), out)
  }

  function EntryMeaning(isTime: string -> bool, key: string, v: Value, m: map<string, int64>): Option<map<string, int64>> {
    Map(IntMeaning(v, 0), n => m[key := n])
  }

  function CountsMeaning(isTime: string -> bool, v: Value, current: Counts): Option<Counts> {
    match v
    case VNull => Some(current)
    case VObj(members) => Map(Meaning(members, map[], EntryMeaning, isTime), m => Some(m))
    case _ => None
  }

  function StatsMeaning(isTime: string -> bool, key: string, v: Value, out: Stats): Option<Stats> {
    if key == "TotalFiles" then Map(IntMeaning(v, out.totalFiles), n => out.(totalFiles := n))
    else if key == "TotalSizeBytes" then Map(IntMeaning(v, out.totalSize), n => out.(totalSize := n))
    else if key == "FilesByCategory" then Map(CountsMeaning(isTime, v, out.files), m => out.(files := m))
    else if key == "SizeByCategory" then Map(CountsMeaning(isTime, v, out.sizes), m => out.(sizes := m))
    else Some(out)
  }

  lemma EntryMeans(isTime: string -> bool)
    ensures Shrinks(Entry) && Means(Entry, EntryMeaning, isTime)
  {
    forall key, v, m, more
      ensures Agrees(Entry(key, AtColon(Print(v, more), isTime), m), more, EntryMeaning(isTime, key, v, m), isTime)
    {
      EntersAtColon(v, more, isTime);
      IntMeans(AtColon(Print(v, more), isTime), v, more, 0, isTime);
    }
  }

  lemma CountsFieldMeans(l: Lex, v: Value, more: seq<Token>, current: Counts, isTime: string -> bool)
    requires Entered(Fetch(l), v, more, isTime)
    ensures Agrees(CountsField(l, current), more, CountsMeaning(isTime, v, current), isTime)
  {
    EntryMeans(isTime);
    var l0 := Fetch(l);
    AfterOpening(l0, v, more, isTime);
    if v.VObj? {
      MembersMean(v.members, true, more, map[], Entry, EntryMeaning, isTime);
      var (l1, m) := Members(Delim(l0, LBrace), map[], Entry);
      if l1.ok {
        AfterClosing(l1, RBrace, more, isTime);
      }
    } else if !v.VNull? {
      Stops(Delim(l0, LBrace), map[], Entry);
    }
  }

  function DecodeStats(l: Lex, out: Stats): (r: (Lex, Stats))
    ensures if l.ok then Size(r.0) < Size(l) else !r.0.ok
  {
    Object(l, out, StatsField)
  }

  lemma StatsFieldMeans(key: string, v: Value, out: Stats, more: seq<Token>, isTime: string -> bool)
    ensures Agrees(StatsField(key, AtColon(Print(v, more), isTime), out), more, StatsMeaning(isTime, key, v, out), isTime)
  {
    var l := AtColon(Print(v, more), isTime);
    EntersAtColon(v, more, isTime);
    if key == "TotalFiles" {
      IntMeans(l, v, more, out.totalFiles, isTime);
    } else if key == "TotalSizeBytes" {
      IntMeans(l, v, more, out.totalSize, isTime);
    } else if key == "FilesByCategory" {
      CountsFieldMeans(l, v, more, out.files, isTime);
    } else if key == "SizeByCategory" {
      CountsFieldMeans(l, v, more, out.sizes, isTime);
    } else {
      SkipMeans(l, v, more, isTime);
    }
  }

  lemma StatsMeans(isTime: string -> bool)
    ensures Shrinks(StatsField) && Means(StatsField, StatsMeaning, isTime)
  {
    forall key, v, out, more
      ensures Agrees(StatsField(key, AtColon(Print(v, more), isTime), out), more, StatsMeaning(isTime, key, v, out), isTime)
    {
      StatsFieldMeans(key, v, out, more, isTime);
    }
  }
}
