/** The running encoders and decoders back to back. */
module Json {
  import opened JsonText
  import opened Documents
  import opened DocumentRoundTrip
  import Decoders
  import Encoders

  /** A notebook encodes exactly when all its times can be written, and then decodes to itself: nil and empty
      slices stay apart and an absent execution count stays absent. */
  method NotebookThrough(nb: Notebook, isTime: string -> bool) returns (ok: bool, back: Notebook)
    ensures ok <==> NotebookTimed(nb, isTime)
    ensures ok ==> back == nb
  {
    var w := new Encoders.Writer(isTime);
    Encoders.EncodeNotebook(w, nb);
    ok, back := w.ok, NO_NOTEBOOK;
    if ok {
      NotebookDocument(nb, [], NO_NOTEBOOK, isTime);
      assert w.buf == Print(VObj(NotebookMembers(nb)), []);
      var lexer := new Decoders.Lexer(w.buf, isTime);
      back := Decoders.DecodeNotebook(lexer, NO_NOTEBOOK);
      ok := lexer.state.ok;
    }
  }

  /** Statistics decode to themselves whatever order their maps were iterated in. */
  method StatsThrough(s: Stats, isTime: string -> bool) returns (ok: bool, back: Stats)
    ensures ok && back == s
  {
    var w := new Encoders.Writer(isTime);
    ghost var files, sizes := Encoders.EncodeStats(w, s);
    StatsDocument(s, files, sizes, [], isTime);
    assert w.buf == Print(VObj(StatsMembers(s, files, sizes)), []);
    var lexer := new Decoders.Lexer(w.buf, isTime);
    back := Decoders.DecodeStats(lexer, NO_STATS);
    ok := lexer.state.ok;
  }
}
