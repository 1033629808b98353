/** The generated decoders as they run (internal/domain/domain_easyjson.go): a lexer that advances and loops that
    assign field by field, each proved equal to its function in Documents. */
module Decoders {
  import opened Wrappers
  import opened JsonLexer
  import opened JsonText
  import Documents

  class Lexer {
    var state: Lex

    constructor (tokens: seq<Token>, isTime: string -> bool)
      ensures state == Begin(tokens, isTime)
    {
      state := Begin(tokens, isTime);
    }

    method IsNull() returns (yes: bool)
      modifies this
      ensures yes == JsonLexer.IsNull(old(state)) && state == Fetch(old(state))
    {
      state := Fetch(state);
      yes := state.token == Some(Null);
    }

    method IsDelim(t: Token) returns (yes: bool)
      modifies this
      ensures yes == JsonLexer.IsDelim(old(state), t) && state == Fetch(old(state))
    {
      state := Fetch(state);
      yes := !state.ok || state.token == Some(t);
    }

    method Skip()
      modifies this
      ensures state == JsonLexer.Skip(old(state))
    {
      state := JsonLexer.Skip(state);
    }

    method Delim(t: Token)
      modifies this
      ensures state == JsonLexer.Delim(old(state), t)
    {
      state := JsonLexer.Delim(state, t);
    }

    method Want(sep: Sep)
      modifies this
      ensures state == After(old(state), sep)
    {
      state := After(state, sep);
    }

    method Consumed()
      modifies this
      ensures state == JsonLexer.Consumed(old(state))
    {
      state := JsonLexer.Consumed(state);
    }

    method SkipRecursive()
      modifies this
      ensures state == JsonLexer.SkipRecursive(old(state))
    {
      state := JsonLexer.SkipRecursive(state);
    }

    method Text() returns (s: string)
      modifies this
      ensures (state, s) == ReadText(old(state))
    {
      var r := ReadText(state);
      state, s := r.0, r.1;
    }

    // A field of each scalar type: null leaves it alone.

    method IntField(current: int64) returns (n: int64)
      modifies this
      ensures (state, n) == Documents.IntField(old(state), current)
    {
      var isNull := IsNull();
      if isNull {
        Skip();
        return current;
      }
      var r := ReadInt(state);
      state, n := r.0, r.1;
    }

    method TextField(current: string) returns (s: string)
      modifies this
      ensures (state, s) == Documents.TextField(old(state), current)
    {
      var isNull := IsNull();
      if isNull {
        Skip();
        return current;
      }
      s := Text();
    }

    method BoolField(current: bool) returns (b: bool)
      modifies this
      ensures (state, b) == Documents.BoolField(old(state), current)
    {
      var isNull := IsNull();
      if isNull {
        Skip();
        return current;
      }
      var r := ReadBool(state);
      state, b := r.0, r.1;
    }

    method TimeField(current: string) returns (s: string)
      modifies this
      ensures (state, s) == Documents.TimeField(old(state), current)
    {
      var isNull := IsNull();
      if isNull {
        Skip();
        return current;
      }
      var r := ReadTime(state, current);
      state, s := r.0, r.1;
    }

    method CountField() returns (c: Option<int64>)
      modifies this
      ensures (state, c) == Documents.CountField(old(state))
    {
      var isNull := IsNull();
      if isNull {
        Skip();
        return None;
      }
      var r := ReadInt(state);
      state, c := r.0, Some(r.1);
    }
  }

  // ---------------------------------------------------------------- block outputs

  method DecodeOutput(lexer: Lexer, start: Documents.Output) returns (out: Documents.Output)
    modifies lexer
    ensures (lexer.state, out) == Documents.DecodeOutput(old(lexer.state), start)
  {
    out := start;
    var isTopLevel := lexer.state.start;
    var isNull := lexer.IsNull();
    if isNull {
      if isTopLevel {
        lexer.Consumed();
      }
      lexer.Skip();
      return;
    }
    lexer.Delim(LBrace);
    out := OutputMembersLoop(lexer, out);
    lexer.Delim(RBrace);
    if isTopLevel {
      lexer.Consumed();
    }
  }

  method OutputMembersLoop(lexer: Lexer, start: Documents.Output) returns (out: Documents.Output)
    modifies lexer
    ensures (lexer.state, out) == Members(old(lexer.state), start, Documents.OutputField)
  {
    out := start;
    var done := lexer.IsDelim(RBrace);
    while !done
      invariant (lexer.state.ok ==> lexer.state.token.Some?) && done == IsDelim(lexer.state, RBrace)
      invariant Members(lexer.state, out, Documents.OutputField) == Members(old(lexer.state), start, Documents.OutputField)
      decreases Size(lexer.state)
    {
      var key := lexer.Text();
      lexer.Want(WantColon);
      out := OutputMember(lexer, key, out);
      lexer.Want(WantComma);
      done := lexer.IsDelim(RBrace);
    }
  }

  method OutputMember(lexer: Lexer, key: string, current: Documents.Output) returns (out: Documents.Output)
    modifies lexer
    ensures (lexer.state, out) == Documents.OutputField(key, old(lexer.state), current)
  {
    out := current;
    match key {
      case "ID" =>
        var n := lexer.IntField(out.id);
        out := out.(id := n);
      case "BlockID" =>
        var n := lexer.IntField(out.blockId);
        out := out.(blockId := n);
      case "Position" =>
        var n := lexer.IntField(out.position);
        out := out.(position := n);
      case "OutputType" =>
        var s := lexer.TextField(out.outputType);
        out := out.(outputType := s);
      case "Content" =>
        var s := lexer.TextField(out.content);
        out := out.(content := s);
      case "CreatedAt" =>
        var s := lexer.TimeField(out.createdAt);
        out := out.(createdAt := s);
      case _ =>
        lexer.SkipRecursive();
    }
  }

  method DecodeOutputs(lexer: Lexer) returns (outputs: Option<seq<Documents.Output>>)
    modifies lexer
    ensures (lexer.state, outputs) == Documents.OutputsField(old(lexer.state))
  {
    var isNull := lexer.IsNull();
    if isNull {
      lexer.Skip();
      return None;
    }
    lexer.Delim(LBrack);
    var items := OutputItems(lexer);
    lexer.Delim(RBrack);
    return Some(items);
  }

  method OutputItems(lexer: Lexer) returns (items: seq<Documents.Output>)
    modifies lexer
    ensures (lexer.state, items) == Items(old(lexer.state), [], Documents.OutputField, Documents.NO_OUTPUT)
  {
    items := [];
    var done := lexer.IsDelim(RBrack);
    while !done
      invariant (lexer.state.ok ==> lexer.state.token.Some?) && done == IsDelim(lexer.state, RBrack)
      invariant Items(lexer.state, items, Documents.OutputField, Documents.NO_OUTPUT)
        == Items(old(lexer.state), [], Documents.OutputField, Documents.NO_OUTPUT)
      decreases Size(lexer.state)
    {
      var item := Documents.NO_OUTPUT;
      var isNull := lexer.IsNull();
      if isNull {
        lexer.Skip();
      } else {
        item := DecodeOutput(lexer, item);
      }
      items := items + [item];
      lexer.Want(WantComma);
      done := lexer.IsDelim(RBrack);
    }
  }

  // ---------------------------------------------------------------- blocks

  method DecodeBlock(lexer: Lexer, start: Documents.Block) returns (out: Documents.Block)
    modifies lexer
    ensures (lexer.state, out) == Documents.DecodeBlock(old(lexer.state), start)
  {
    out := start;
    var isTopLevel := lexer.state.start;
    var isNull := lexer.IsNull();
    if isNull {
      if isTopLevel {
        lexer.Consumed();
      }
      lexer.Skip();
      return;
    }
    lexer.Delim(LBrace);
    out := BlockMembersLoop(lexer, out);
    lexer.Delim(RBrace);
    if isTopLevel {
      lexer.Consumed();
    }
  }

  method BlockMembersLoop(lexer: Lexer, start: Documents.Block) returns (out: Documents.Block)
    modifies lexer
    ensures (lexer.state, out) == Members(old(lexer.state), start, Documents.BlockField)
  {
    out := start;
    var done := lexer.IsDelim(RBrace);
    while !done
      invariant (lexer.state.ok ==> lexer.state.token.Some?) && done == IsDelim(lexer.state, RBrace)
      invariant Members(lexer.state, out, Documents.BlockField) == Members(old(lexer.state), start, Documents.BlockField)
      decreases Size(lexer.state)
    {
      var key := lexer.Text();
      lexer.Want(WantColon);
      out := BlockMember(lexer, key, out);
      lexer.Want(WantComma);
      done := lexer.IsDelim(RBrace);
    }
  }

  method BlockMember(lexer: Lexer, key: string, current: Documents.Block) returns (out: Documents.Block)
    modifies lexer
    ensures (lexer.state, out) == Documents.BlockField(key, old(lexer.state), current)
  {
    out := current;
    match key {
      case "ID" =>
        var n := lexer.IntField(out.id);
        out := out.(id := n);
      case "NotebookID" =>
        var n := lexer.IntField(out.notebookId);
        out := out.(notebookId := n);
      case "Type" =>
        var s := lexer.TextField(out.kind);
        out := out.(kind := s);
      case "Language" =>
        var s := lexer.TextField(out.language);
        out := out.(language := s);
      case "Content" =>
        var s := lexer.TextField(out.content);
        out := out.(content := s);
      case "Position" =>
        var n := lexer.IntField(out.position);
        out := out.(position := n);
      case "ExecutionCount" =>
        var c := lexer.CountField();
        out := out.(executionCount := c);
      case "Outputs" =>
        var os := DecodeOutputs(lexer);
        out := out.(outputs := os);
      case "CreatedAt" =>
        var s := lexer.TimeField(out.createdAt);
        out := out.(createdAt := s);
      case "UpdatedAt" =>
        var s := lexer.TimeField(out.updatedAt);
        out := out.(updatedAt := s);
      case _ =>
        lexer.SkipRecursive();
    }
  }

  method DecodeBlocks(lexer: Lexer) returns (blocks: Option<seq<Documents.Block>>)
    modifies lexer
    ensures (lexer.state, blocks) == Documents.BlocksField(old(lexer.state))
  {
    var isNull := lexer.IsNull();
    if isNull {
      lexer.Skip();
      return None;
    }
    lexer.Delim(LBrack);
    var items := BlockItems(lexer);
    lexer.Delim(RBrack);
    return Some(items);
  }

  method BlockItems(lexer: Lexer) returns (items: seq<Documents.Block>)
    modifies lexer
    ensures (lexer.state, items) == Items(old(lexer.state), [], Documents.BlockField, Documents.NO_BLOCK)
  {
    items := [];
    var done := lexer.IsDelim(RBrack);
    while !done
      invariant (lexer.state.ok ==> lexer.state.token.Some?) && done == IsDelim(lexer.state, RBrack)
      invariant Items(lexer.state, items, Documents.BlockField, Documents.NO_BLOCK)
        == Items(old(lexer.state), [], Documents.BlockField, Documents.NO_BLOCK)
      decreases Size(lexer.state)
    {
      var item := Documents.NO_BLOCK;
      var isNull := lexer.IsNull();
      if isNull {
        lexer.Skip();
      } else {
        item := DecodeBlock(lexer, item);
      }
      items := items + [item];
      lexer.Want(WantComma);
      done := lexer.IsDelim(RBrack);
    }
  }

  // ---------------------------------------------------------------- notebooks

  method DecodeNotebook(lexer: Lexer, start: Documents.Notebook) returns (out: Documents.Notebook)
    modifies lexer
    ensures (lexer.state, out) == Documents.DecodeNotebook(old(lexer.state), start)
  {
    out := start;
    var isTopLevel := lexer.state.start;
    var isNull := lexer.IsNull();
    if isNull {
      if isTopLevel {
        lexer.Consumed();
      }
      lexer.Skip();
      return;
    }
    lexer.Delim(LBrace);
    out := NotebookMembersLoop(lexer, out);
    lexer.Delim(RBrace);
    if isTopLevel {
      lexer.Consumed();
    }
  }

  method NotebookMembersLoop(lexer: Lexer, start: Documents.Notebook) returns (out: Documents.Notebook)
    modifies lexer
    ensures (lexer.state, out) == Members(old(lexer.state), start, Documents.NotebookField)
  {
    out := start;
    var done := lexer.IsDelim(RBrace);
    while !done
      invariant (lexer.state.ok ==> lexer.state.token.Some?) && done == IsDelim(lexer.state, RBrace)
      invariant Members(lexer.state, out, Documents.NotebookField) == Members(old(lexer.state), start, Documents.NotebookField)
      decreases Size(lexer.state)
    {
      var key := lexer.Text();
      lexer.Want(WantColon);
      out := NotebookMember(lexer, key, out);
      lexer.Want(WantComma);
      done := lexer.IsDelim(RBrace);
    }
  }

  method NotebookMember(lexer: Lexer, key: string, current: Documents.Notebook) returns (out: Documents.Notebook)
    modifies lexer
    ensures (lexer.state, out) == Documents.NotebookField(key, old(lexer.state), current)
  {
    out := current;
    match key {
      case "ID" =>
        var n := lexer.IntField(out.id);
        out := out.(id := n);
      case "OwnerID" =>
        var n := lexer.IntField(out.ownerId);
        out := out.(ownerId := n);
      case "OwnerUsername" =>
        var s := lexer.TextField(out.ownerUsername);
        out := out.(ownerUsername := s);
      case "Title" =>
        var s := lexer.TextField(out.title);
        out := out.(title := s);
      case "IsPublic" =>
        var b := lexer.BoolField(out.isPublic);
        out := out.(isPublic := b);
      case "Blocks" =>
        var bs := DecodeBlocks(lexer);
        out := out.(blocks := bs);
      case "CreatedAt" =>
        var s := lexer.TimeField(out.createdAt);
        out := out.(createdAt := s);
      case "UpdatedAt" =>
        var s := lexer.TimeField(out.updatedAt);
        out := out.(updatedAt := s);
      case "YourPermission" =>
        var s := lexer.TextField(out.yourPermission);
        out := out.(yourPermission := s);
      case _ =>
        lexer.SkipRecursive();
    }
  }

  // ---------------------------------------------------------------- storage statistics

  method DecodeStats(lexer: Lexer, start: Documents.Stats) returns (out: Documents.Stats)
    modifies lexer
    ensures (lexer.state, out) == Documents.DecodeStats(old(lexer.state), start)
  {
    out := start;
    var isTopLevel := lexer.state.start;
    var isNull := lexer.IsNull();
    if isNull {
      if isTopLevel {
        lexer.Consumed();
      }
      lexer.Skip();
      return;
    }
    lexer.Delim(LBrace);
    out := StatsMembersLoop(lexer, out);
    lexer.Delim(RBrace);
    if isTopLevel {
      lexer.Consumed();
    }
  }

  method StatsMembersLoop(lexer: Lexer, start: Documents.Stats) returns (out: Documents.Stats)
    modifies lexer
    ensures (lexer.state, out) == Members(old(lexer.state), start, Documents.StatsField)
  {
    out := start;
    var done := lexer.IsDelim(RBrace);
    while !done
      invariant (lexer.state.ok ==> lexer.state.token.Some?) && done == IsDelim(lexer.state, RBrace)
      invariant Members(lexer.state, out, Documents.StatsField) == Members(old(lexer.state), start, Documents.StatsField)
      decreases Size(lexer.state)
    {
      var key := lexer.Text();
      lexer.Want(WantColon);
      out := StatsMember(lexer, key, out);
      lexer.Want(WantComma);
      done := lexer.IsDelim(RBrace);
    }
  }

  method StatsMember(lexer: Lexer, key: string, current: Documents.Stats) returns (out: Documents.Stats)
    modifies lexer
    ensures (lexer.state, out) == Documents.StatsField(key, old(lexer.state), current)
  {
    out := current;
    match key {
      case "TotalFiles" =>
        var n := lexer.IntField(out.totalFiles);
        out := out.(totalFiles := n);
      case "TotalSizeBytes" =>
        var n := lexer.IntField(out.totalSize);
        out := out.(totalSize := n);
      case "FilesByCategory" =>
        var m := DecodeCounts(lexer, out.files);
        out := out.(files := m);
      case "SizeByCategory" =>
        var m := DecodeCounts(lexer, out.sizes);
        out := out.(sizes := m);
      case _ =>
        lexer.SkipRecursive();
    }
  }

  method DecodeCounts(lexer: Lexer, current: Documents.Counts) returns (counts: Documents.Counts)
    modifies lexer
    ensures (lexer.state, counts) == Documents.CountsField(old(lexer.state), current)
  {
    var isNull := lexer.IsNull();
    if isNull {
      lexer.Skip();
      return current;
    }
    lexer.Delim(LBrace);
    var m := DecodeEntries(lexer);
    lexer.Delim(RBrace);
    return Some(m);
  }

  method DecodeEntries(lexer: Lexer) returns (m: map<string, int64>)
    modifies lexer
    ensures (lexer.state, m) == Members(old(lexer.state), map[], Documents.Entry)
  {
    m := map[];
    var done := lexer.IsDelim(RBrace);
    while !done
      invariant (lexer.state.ok ==> lexer.state.token.Some?) && done == IsDelim(lexer.state, RBrace)
      invariant Members(lexer.state, m, Documents.Entry) == Members(old(lexer.state), map[], Documents.Entry)
      decreases Size(lexer.state)
    {
      var key := lexer.Text();
      lexer.Want(WantColon);
      var n := lexer.IntField(0);
      m := m[key := n];
      lexer.Want(WantComma);
      done := lexer.IsDelim(RBrace);
    }
  }
}
