/** One migrator as it runs (cmd/migrator/main.go:16-60): sort the directory, then check, apply and
    record, stopping at the first error.  sort.Slice is foreign; any correct sort gives this order. */
module MigratorMain {
  import opened Migrator

  // ---------------------------------------------------------------- the sorted directory

  function Insert(e: DirEntry, es: seq<DirEntry>): seq<DirEntry> {
    if es == [] || !Less(es[0].name, e.name) then [e] + es else [es[0]] + Insert(e, es[1..])
  }

  function Sort(es: seq<DirEntry>): seq<DirEntry> {
    if es == [] then [] else Insert(es[0], Sort(es[1..]))
  }

  lemma {:induction false} LessTransitive(a: string, b: string, c: string)
    requires Less(a, b) && Less(b, c)
    ensures Less(a, c)
  {
    if a != "" && a[0] == b[0] && b[0] == c[0] { LessTransitive(a[1..], b[1..], c[1..]); }
  }

  lemma {:induction false} LessTotal(a: string, b: string)
    ensures Less(a, b) || Less(b, a) || a == b
    ensures !(Less(a, b) && Less(b, a))
    ensures !Less(a, a)
  {
    if a != "" && b != "" {
      LessTotal(a[1..], b[1..]);
      assert a == [a[0]] + a[1..] && b == [b[0]] + b[1..];
    }
    if a != "" { LessTotal(a[1..], a[1..]); }
  }

  lemma {:induction false} InsertContents(e: DirEntry, es: seq<DirEntry>)
    ensures multiset(Insert(e, es)) == multiset(es) + multiset{e}
  {
    if es != [] && Less(es[0].name, e.name) {
      InsertContents(e, es[1..]);
      assert es == [es[0]] + es[1..];
    }
  }

  lemma {:induction false} InsertSorted(e: DirEntry, es: seq<DirEntry>)
    requires SortedByName(es) && forall x :: x in es ==> x.name != e.name
    ensures SortedByName(Insert(e, es))
  {
    if es == [] {
    } else if Less(es[0].name, e.name) {
      var rest := Insert(e, es[1..]);
      InsertSorted(e, es[1..]);
      InsertContents(e, es[1..]);
      forall k | 0 <= k < |rest| ensures Less(es[0].name, rest[k].name) {
        assert rest[k] in multiset(rest);
        assert rest[k] == e || rest[k] in es[1..];
      }
    } else {
      LessTotal(es[0].name, e.name);
      forall k | 0 <= k < |es| ensures Less(e.name, es[k].name) {
        if k > 0 { LessTransitive(e.name, es[0].name, es[k].name); }
      }
    }
  }

  lemma {:induction false} SortSorts(es: seq<DirEntry>)
    requires DistinctNames(es)
    ensures SortedByName(Sort(es))
    ensures multiset(Sort(es)) == multiset(es)
  {
    if es != [] {
      var rest := es[1..];
      SortSorts(rest);
      assert es == [es[0]] + rest;
      forall x | x in Sort(rest) ensures x.name != es[0].name {
        assert x in multiset(Sort(rest)) && x in rest;
      }
      InsertSorted(es[0], Sort(rest));
      InsertContents(es[0], Sort(rest));
    }
  }

  /** Two sorted lists of the same entries are the same list, so the order does not depend on how
      the directory was listed nor on which sorting algorithm runs. */
  lemma {:induction false} SortedIsUnique(a: seq<DirEntry>, b: seq<DirEntry>)
    requires SortedByName(a) && SortedByName(b) && multiset(a) == multiset(b)
    ensures a == b
  {
    assert |multiset(a)| == |a| && |multiset(b)| == |b|;
    if a != [] {
      FirstIsLeast(a, b);
      FirstIsLeast(b, a);
      LessTotal(a[0].name, b[0].name);
      TailContents(a);
      TailContents(b);
      SortedIsUnique(a[1..], b[1..]);
      HeadAndTail(a, b);
    }
  }

  lemma HeadAndTail(a: seq<DirEntry>, b: seq<DirEntry>)
    requires a != [] && b != [] && a[0] == b[0] && a[1..] == b[1..]
    ensures a == b
  {
    assert a == [a[0]] + a[1..] && b == [b[0]] + b[1..];
  }

  lemma TailContents(a: seq<DirEntry>)
    requires a != []
    ensures multiset(a[1..]) == multiset(a) - multiset{a[0]}
  {
    assert a == [a[0]] + a[1..];
  }

  lemma FirstIsLeast(a: seq<DirEntry>, b: seq<DirEntry>)
    requires SortedByName(a) && a != [] && b != [] && multiset(a) == multiset(b)
    ensures a[0] == b[0] || Less(a[0].name, b[0].name)
  {
    assert b[0] in multiset(b);
    assert b[0] in a;
  }

  // ---------------------------------------------------------------- one run

  /** What can go wrong at one entry. */
  datatype Fault = NoFault | CheckFails | ReadFails | BeginFails | ExecFails | RecordFails | CommitFails | CommitUnheard

  class Database {
    var applied: seq<Migration>  // the rows of schema_migrations, in commit order

    constructor (applied: seq<Migration>)
      ensures this.applied == applied
    {
      this.applied := applied;
    }

    /** Read, execute and record in one transaction: all of it happens, or none. */
    method ApplyMigration(m: Migration, fault: Fault) returns (ok: bool)
      modifies this
      ensures applied == old(applied) || (applied == old(applied) + [m] && m.version !in Versions(old(applied)))
      ensures ok ==> applied == old(applied) + [m]
      ensures fault == NoFault && m.version !in Versions(old(applied)) ==> ok
    {
      if fault in {ReadFails, BeginFails, ExecFails, RecordFails} {
        return false;
      }
      if m.version in Versions(applied) {
        return false;
      }
      if fault == CommitFails {
        return false;
      }
      applied := applied + [m];
      return fault != CommitUnheard;
    }
  }

  /** What entry `k` contributes to the list of migrations from position `i` on. */
  ghost predicate NextEntry(ms: seq<Migration>, i: nat, entry: DirEntry, i': nat) {
    if !IsSql(entry) then i' == i
    else match ParseVersion(entry.name)
         case None => i == |ms|
         case Some(v) => i < |ms| && ms[i] == Migration(v, entry.name) && i' == i + 1
  }

  lemma ReachedNext(ms: seq<Migration>, i: nat, es: seq<DirEntry>, k: nat) returns (i': nat)
    requires i <= |ms| && k < |es| && ms[i..] == Reached(es[k..])
    ensures NextEntry(ms, i, es[k], i')
    ensures (IsSql(es[k]) ==> ParseVersion(es[k].name).Some?) ==> (i' <= |ms| && ms[i'..] == Reached(es[k + 1..]))
  {
    assert es[k..][1..] == es[k + 1..];
    i' := i;
    if IsSql(es[k]) && ParseVersion(es[k].name).Some? {
      i' := i + 1;
      assert ms[i..][1..] == ms[i'..] && ms[i..][0] == ms[i];
    }
  }

  /** The body of the main loop: skip, or parse, check and apply. */
  method ProcessEntry(db: Database, ghost ms: seq<Migration>, ghost i: nat, ghost i': nat, entry: DirEntry, fault: Fault)
    returns (ok: bool)
    requires i <= |ms| && NextEntry(ms, i, entry, i')
    requires db.applied <= Canonical(ms) && Versions(ms[..i]) <= Versions(db.applied)
    modifies db
    ensures old(db.applied) <= db.applied <= Canonical(ms)
    ensures ok ==> i' <= |ms| && Versions(ms[..i']) <= Versions(db.applied)
    ensures ok ==> (IsSql(entry) ==> ParseVersion(entry.name).Some?)
    ensures fault == NoFault && (IsSql(entry) ==> ParseVersion(entry.name).Some?) ==> ok
  {
    if !IsSql(entry) {
      return true;
    }
    var version := ParseVersion(entry.name);
    if version.None? || fault == CheckFails {
      return false;
    }
    VersionsUpTo(ms, i);
    if version.value in Versions(db.applied) {
      return true;
    }
    NextInLine(ms, db.applied, i);
    VersionsSnoc(db.applied, ms[i]);
    ok := db.ApplyMigration(Migration(version.value, entry.name), fault);
  }

  /** The main loop.  From any canonical prefix it only extends the prefix; when it exits with success
      the whole canonical history is there; and only a fault or a bad name keeps it from success. */
  method Migrate(db: Database, dir: seq<DirEntry>, setupFails: bool, faults: seq<Fault>) returns (ok: bool)
    requires DistinctNames(dir) && |faults| == |dir|
    requires db.applied <= Canonical(Reached(Sort(dir)))
    modifies db
    ensures old(db.applied) <= db.applied <= Canonical(Reached(Sort(dir)))
    ensures ok ==> db.applied == Canonical(Reached(Sort(dir))) && AllParse(dir)
    ensures !setupFails && (forall f :: f in faults ==> f == NoFault) && AllParse(dir) ==> ok
  {
    if setupFails {
      return false;
    }
    SameEntries(dir);
    ok := MigrateSorted(db, Reached(Sort(dir)), Sort(dir), faults);
  }

  /** The loop itself, over the sorted entries. */
  method MigrateSorted(db: Database, ghost ms: seq<Migration>, entries: seq<DirEntry>, faults: seq<Fault>)
    returns (ok: bool)
    requires ms == Reached(entries) && |faults| == |entries| && db.applied <= Canonical(ms)
    modifies db
    ensures old(db.applied) <= db.applied <= Canonical(ms)
    ensures ok ==> db.applied == Canonical(ms) && AllParse(entries)
    ensures (forall f :: f in faults ==> f == NoFault) && AllParse(entries) ==> ok
  {
    ghost var i := 0;
    var k := 0;
    while k < |entries|
      invariant 0 <= k <= |entries| && 0 <= i <= |ms|
      invariant ms[i..] == Reached(entries[k..])
      invariant AllParse(entries[..k])
      invariant old(db.applied) <= db.applied <= Canonical(ms)
      invariant Versions(ms[..i]) <= Versions(db.applied)
    {
      ghost var i' := ReachedNext(ms, i, entries, k);
      assert faults[k] in faults && entries[k] in entries;
      var ok' := ProcessEntry(db, ms, i, i', entries[k], faults[k]);
      if !ok' {
        return false;
      }
      AllParseSnoc(entries, k);
      k, i := k + 1, i';
    }
    assert entries[..k] == entries && ms[..i] == ms;
    AllAppliedIsCanonical(ms, db.applied);
    return true;
  }

  lemma AllParseSnoc(es: seq<DirEntry>, k: nat)
    requires k < |es| && AllParse(es[..k]) && (IsSql(es[k]) ==> ParseVersion(es[k].name).Some?)
    ensures AllParse(es[..k + 1])
  {
    assert es[..k + 1] == es[..k] + [es[k]];
  }

  lemma SameEntries(dir: seq<DirEntry>)
    requires DistinctNames(dir)
    ensures |Sort(dir)| == |dir|
    ensures AllParse(Sort(dir)) <==> AllParse(dir)
  {
    SortSorts(dir);
    var entries := Sort(dir);
    assert |multiset(entries)| == |entries| && |multiset(dir)| == |dir|;
    forall e ensures e in entries <==> e in dir {
      assert e in entries <==> e in multiset(entries);
    }
  }
}
