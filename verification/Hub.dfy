/** The notebook event hub (internal/notebook/hub/hub.go) and the stream loop that serves one
    subscriber (internal/notebook/grpc/server.go:231-284).  Each hub method runs under its lock. */
module Hub {
  import opened Channel

  const DEFAULT_BUF_SIZE := 64

  type Registry<C> = map<int, map<string, C>>

  function Conns<C>(subs: Registry<C>, notebook: int): map<string, C> {
    if notebook in subs then subs[notebook] else map[]
  }

  predicate Has<C>(subs: Registry<C>, notebook: int, conn: string) {
    notebook in subs && conn in subs[notebook]
  }

  function With<C>(subs: Registry<C>, notebook: int, conn: string, ch: C): Registry<C> {
    subs[notebook := Conns(subs, notebook)[conn := ch]]
  }

  function Without<C>(subs: Registry<C>, notebook: int, conn: string): Registry<C> {
    if notebook !in subs then subs
    else
      var conns := subs[notebook] - {conn};
      if conns == map[] then subs - {notebook} else subs[notebook := conns]
  }

  ghost predicate NoEmptyNotebook<C>(subs: Registry<C>) {
    forall notebook :: notebook in subs ==> subs[notebook] != map[]
  }

  lemma WithEntries<C>(subs: Registry<C>, notebook: int, conn: string, ch: C)
    requires NoEmptyNotebook(subs)
    ensures var r := With(subs, notebook, conn, ch);
            && NoEmptyNotebook(r)
            && (forall n, c :: Has(r, n, c) <==> Has(subs, n, c) || (n == notebook && c == conn))
            && (forall n, c :: Has(r, n, c) ==>
                  r[n][c] == if n == notebook && c == conn then ch else subs[n][c])
  {
    assert conn in With(subs, notebook, conn, ch)[notebook];
  }

  lemma WithoutEntries<C>(subs: Registry<C>, notebook: int, conn: string)
    requires NoEmptyNotebook(subs)
    ensures var r := Without(subs, notebook, conn);
            && NoEmptyNotebook(r)
            && (forall n, c :: Has(r, n, c) <==> Has(subs, n, c) && !(n == notebook && c == conn))
            && (forall n, c :: Has(r, n, c) ==> r[n][c] == subs[n][c])
  {
    if notebook in subs {
      var left := subs[notebook] - {conn};
      assert forall c :: c in left <==> c in subs[notebook] && c != conn;
      if left != map[] { assert left.Keys != {}; }
    }
  }

  /** Nothing is registered twice. */
  ghost predicate Separate<C>(subs: Registry<C>) {
    forall n, n', c, c' :: Has(subs, n, c) && Has(subs, n', c') && subs[n][c] == subs[n'][c'] ==> n == n' && c == c'
  }

  lemma WithoutIsSeparate<C>(subs: Registry<C>, notebook: int, conn: string)
    requires NoEmptyNotebook(subs) && Separate(subs)
    ensures Separate(Without(subs, notebook, conn))
  {
    WithoutEntries(subs, notebook, conn);
  }

  /** A value registered nowhere can be registered anywhere. */
  lemma NewcomerIsSeparate<C>(subs: Registry<C>, notebook: int, conn: string, ch: C)
    requires NoEmptyNotebook(subs) && Separate(subs) && forall n, c :: Has(subs, n, c) ==> subs[n][c] != ch
    ensures Separate(With(subs, notebook, conn, ch))
  {
    WithEntries(subs, notebook, conn, ch);
  }

  function Capacity(bufSize: int): nat {
    if bufSize <= 0 then DEFAULT_BUF_SIZE else bufSize
  }

  lemma Missing<K, V>(m: map<K, V>, k: K)
    requires k !in m
    ensures m - {k} == m
  {}

  class Hub {
    var subs: Registry<Chan>
    ghost var chans: set<Chan>  // the channels a method may touch: all registered ones among them

    /** Every registered channel is open and sound and registered once; no inner map is empty. */
    ghost predicate Valid()
      reads this, chans
    {
      && NoEmptyNotebook(subs)
      && (forall n, c :: Has(subs, n, c) ==> subs[n][c] in chans)
      && (forall ch :: ch in chans ==> ch.Valid() && !ch.closed)
      && Separate(subs)
    }

    constructor ()
      ensures Valid() && subs == map[] && chans == {}
    {
      subs, chans := map[], {};
    }

    method Subscribe(notebook: int, conn: string, bufSize: int) returns (ch: Chan)
      requires Valid()
      modifies this
      ensures Valid() && fresh(ch) && subs == With(old(subs), notebook, conn, ch) && chans == old(chans) + {ch}
      ensures ch.ops == [] && ch.cap == Capacity(bufSize)
    {
      ch := new Chan(if bufSize <= 0 then DEFAULT_BUF_SIZE else bufSize);
      NewcomerIsSeparate(subs, notebook, conn, ch);
      WithEntries(subs, notebook, conn, ch);
      ghost var after := With(subs, notebook, conn, ch);
      if notebook !in subs {
        subs := subs[notebook := map[]];
      }
      subs := subs[notebook := subs[notebook][conn := ch]];
      assert subs == after;
      chans := chans + {ch};
    }

    /** Closes the channel registered under this connection, if any, and forgets it. */
    method Unsubscribe(notebook: int, conn: string)
      requires Valid()
      modifies this, if Has(subs, notebook, conn) then {subs[notebook][conn]} else {}
      ensures Valid() && subs == Without(old(subs), notebook, conn)
      ensures chans == old(chans) - (if Has(old(subs), notebook, conn) then {old(subs)[notebook][conn]} else {})
      ensures Has(old(subs), notebook, conn) ==>
                var ch := old(subs)[notebook][conn]; ch.closed && ch.ops == old(ch.ops) && ch.Valid()
    {
      WithoutEntries(subs, notebook, conn);
      WithoutIsSeparate(subs, notebook, conn);
      ghost var after := Without(subs, notebook, conn);
      if notebook !in subs {
        return;
      }
      var conns := subs[notebook];
      if conn in conns {
        assert Has(subs, notebook, conn);
        conns[conn].Close();
        chans := chans - {conns[conn]};
        conns := conns - {conn};
      } else {
        Missing(conns, conn);
      }
      subs := subs[notebook := conns];
      if conns == map[] {
        subs := subs - {notebook};
      }
      assert subs == after;
    }

    /** Offers the event to every channel of the notebook, in any order, and touches no other. */
    method Publish(notebook: int, e: Event)
      requires Valid()
      modifies Conns(subs, notebook).Values
      ensures Valid()
      ensures forall c :: Has(subs, notebook, c) ==> subs[notebook][c].ops == old(subs[notebook][c].ops) + [Offer(e)]
    {
      if notebook !in subs {
        return;
      }
      assert forall c :: c in subs[notebook] ==> Has(subs, notebook, c);
      OfferToAll(subs[notebook], e);
    }

    /** The loop over the channels of one notebook. */
    method OfferToAll(conns: map<string, Chan>, e: Event)
      requires forall c :: c in conns ==> conns[c].Valid() && !conns[c].closed
      requires forall a, b :: a in conns && b in conns && a != b ==> conns[a] != conns[b]
      modifies conns.Values
      ensures forall ch :: ch in conns.Values ==> ch.Valid() && !ch.closed && ch.ops == old(ch.ops) + [Offer(e)]
    {
      var todo := conns.Keys;
      while todo != {}
        invariant todo <= conns.Keys
        invariant forall c :: c in conns ==>
                    && conns[c].Valid() && !conns[c].closed
                    && conns[c].ops == old(conns[c].ops) + (if c in todo then [] else [Offer(e)])
      {
        var c :| c in todo;
        todo := todo - {c};
        conns[c].TrySend(e);
      }
    }
  }
}
