/** What migrating drop-ins records, and what deleting the record's files gives back. */
module ServiceInstallDropIns {
  import opened Results
  import opened ServiceInstall

  function Names(names: seq<string>): set<string> { set n | n in names }

  ghost predicate AllFiles(w: World, from: int, to: int) { forall k: nat :: from <= k < to ==> w.files(k) }

  ghost predicate AllWritten(w: World, from: int, to: int) { forall k: nat :: from <= k < to ==> w.writes(k).Done? }

  ghost predicate NoPartial(w: World, from: int, to: int) { forall k: nat :: from <= k < to ==> !w.writes(k).Partial? }

  /** Deleting the copied files and the created directory gives back what was there before. */
  ghost predicate Undoes(before: Option<map<string, Entry>>, after: Option<map<string, Entry>>, rec: Record) {
    && (rec.created <==> before.None? && after.Some?)
    && (before.Some? ==> after.Some?)
    && (forall n :: n in rec.copied ==> n !in Files(before) && n in Files(after) && Files(after)[n].File?)
    && Files(after) - Names(rec.copied) == Files(before)
  }

  /** As before, except that the file whose write failed half-way is there with what was written of it. */
  ghost predicate LeavesPart(
      before: Option<map<string, Entry>>, after: Option<map<string, Entry>>, rec: Record, name: string, part: Text)
  {
    && after.Some? && name !in Files(before)
    && Files(after) - Names(rec.copied) == Files(before)[name := File(part)]
  }

  /** The directory as the record has it: with a part in it exactly if the last write left one. */
  ghost predicate Recorded(w: World, before: Option<map<string, Entry>>, from: nat, m: Machine, rec: Record) {
    && from <= m.writes && NoPartial(w, from, m.writes - 1)
    && if from < m.writes && w.writes(m.writes - 1).Partial?
       then exists name, part :: LeavesPart(before, m.disk.dropIns, rec, name, part)
                                 && w.writes(m.writes - 1) == Partial(part)
       else Undoes(before, m.disk.dropIns, rec)
  }

  /** Only drop-ins, counters and the record of copies change. */
  ghost predicate OnlyCopies(m: Machine, rec: Record, p: Progress) {
    && m.files <= p.m.files && m.writes <= p.m.writes
    && p.m == m.(disk := m.disk.(dropIns := p.m.disk.dropIns), files := p.m.files, writes := p.m.writes)
    && p.rec == rec.(copied := p.rec.copied, created := p.rec.created, retained := p.rec.retained)
  }

  /** What counts as a drop-in: a plain file named like one. */
  predicate DropIn(e: SourceEntry) {
    e.entry.File? && |e.name| >= 5 && e.name[|e.name| - 5..] == ".conf"
  }

  /** A file operation or write failed, or the new unit has something odd under the name of a file to migrate. */
  ghost predicate CannotCopy(w: World, before: map<string, Entry>, entries: seq<SourceEntry>, m: Machine, t: Machine) {
    || !AllFiles(w, m.files, t.files)
    || !AllWritten(w, m.writes, t.writes)
    || exists i :: 0 <= i < |entries| && DropIn(entries[i]) && entries[i].name in before && before[entries[i].name].Odd?
  }

  lemma NewName(before: Option<map<string, Entry>>, after: Option<map<string, Entry>>, rec: Record, name: string)
    requires Undoes(before, after, rec) && name !in Files(after)
    ensures name !in Files(before)
  {
    assert forall n :: n in Files(before) ==> n in Files(after) - Names(rec.copied);
  }

  lemma WriteUndoes(
      w: World, m: Machine, rec: Record, name: string, contents: Text, before: Option<map<string, Entry>>, from: nat)
    requires Undoes(before, m.disk.dropIns, rec) && m.disk.dropIns.Some? && name !in Files(m.disk.dropIns)
    requires from <= m.writes && NoPartial(w, from, m.writes)
    ensures var p := WriteDropIn(w, m, rec, name, contents);
            && OnlyCopies(m, rec, p) && p.m.files == m.files && p.m.writes == m.writes + 1
            && (p.ok <==> w.writes(m.writes).Done?)
            && Recorded(w, before, from, p.m, p.rec)
            && (p.ok ==> Files(p.m.disk.dropIns) == Files(m.disk.dropIns)[name := File(contents)])
  {
    var files := Files(m.disk.dropIns);
    NewName(before, m.disk.dropIns, rec, name);
    match w.writes(m.writes)
    case Done =>
      var t := files[name := File(contents)];
      assert Names(rec.copied + [name]) == Names(rec.copied) + {name};
      assert t - Names(rec.copied + [name]) == files - Names(rec.copied);
    case Failed =>
    case Partial(part) =>
      var t := files[name := File(part)];
      assert t - Names(rec.copied) == (files - Names(rec.copied))[name := File(part)];
      assert LeavesPart(before, Some(t), rec, name, part);
  }

  lemma CopyUndoes(
      w: World, m: Machine, rec: Record, name: string, contents: Text, before: Option<map<string, Entry>>, from: nat)
    requires Undoes(before, m.disk.dropIns, rec) && name !in Files(m.disk.dropIns)
    requires from <= m.writes && NoPartial(w, from, m.writes)
    ensures var p := CopyDropIn(w, m, rec, name, contents);
            && OnlyCopies(m, rec, p)
            && (p.ok <==> AllFiles(w, m.files, p.m.files) && AllWritten(w, m.writes, p.m.writes))
            && p.m.writes <= m.writes + 1
            && Recorded(w, before, from, p.m, p.rec)
            && (p.ok ==> Files(p.m.disk.dropIns) == Files(m.disk.dropIns)[name := File(contents)])
  {
    if m.disk.dropIns.Some? {
      WriteUndoes(w, m, rec, name, contents, before, from);
    } else if w.files(m.files) {
      var t := Tried(m).(disk := m.disk.(dropIns := Some(map[])));
      assert map[] - Names(rec.copied) == Files(m.disk.dropIns) - Names(rec.copied);
      WriteUndoes(w, t, rec.(created := true), name, contents, before, from);
    }
  }

  // ---- one entry, then all ----

  ghost predicate Grows(f: map<string, Entry>, g: map<string, Entry>) {
    forall n :: n in f ==> n in g && g[n] == f[n]
  }

  /** After an entry was taken, it is migrated, or was found impossible to migrate. */
  ghost predicate Taken(m: Machine, p: Progress, e: SourceEntry) {
    && Grows(Files(m.disk.dropIns), Files(p.m.disk.dropIns))
    && (Retains(Files(m.disk.dropIns), e) <==> !Migrated(Files(p.m.disk.dropIns), e))
    && (IsConf(e) ==> e.name in Files(p.m.disk.dropIns))
  }

  lemma CannotCopyOne(w: World, before: map<string, Entry>, e: SourceEntry, m: Machine, t: Machine)
    ensures CannotCopy(w, before, [e], m, t)
       <==> || !AllFiles(w, m.files, t.files) || !AllWritten(w, m.writes, t.writes)
            || (DropIn(e) && e.name in before && before[e.name].Odd?)
  {
    assert [e][0] == e;
  }

  ghost predicate EntryMoved(
      w: World, before: Option<map<string, Entry>>, from: nat, m: Machine, rec: Record, e: SourceEntry, p: Progress)
  {
    && OnlyCopies(m, rec, p)
    && (p.ok ==> Taken(m, p, e))
    && (p.ok <==> !CannotCopy(w, Files(before), [e], m, p.m))
    && Recorded(w, before, from, p.m, p.rec)
  }

  /** A name the new unit already has. */
  lemma SeenUndoes(w: World, m: Machine, rec: Record, e: SourceEntry, before: Option<map<string, Entry>>, from: nat)
    requires Undoes(before, m.disk.dropIns, rec) && from <= m.writes && NoPartial(w, from, m.writes)
    requires IsConf(e) && w.files(m.files) && e.name in Files(m.disk.dropIns)
    ensures EntryMoved(w, before, from, m, rec, e, MigrateEntry(w, m, rec, e))
  {
    OddIsThere(before, m.disk.dropIns, rec, e.name);
    CannotCopyOne(w, Files(before), e, m, Tried(Tried(m)));
  }

  lemma NewUndoes(w: World, m: Machine, rec: Record, e: SourceEntry, before: Option<map<string, Entry>>, from: nat)
    requires Undoes(before, m.disk.dropIns, rec) && from <= m.writes && NoPartial(w, from, m.writes)
    requires IsConf(e) && w.files(m.files) && e.name !in Files(m.disk.dropIns)
    ensures EntryMoved(w, before, from, m, rec, e, MigrateEntry(w, m, rec, e))
  {
    NewName(before, m.disk.dropIns, rec, e.name);
    CopyUndoes(w, Tried(m), rec, e.name, e.entry.contents, before, from);
    CannotCopyOne(w, Files(before), e, m, MigrateEntry(w, m, rec, e).m);
  }

  lemma EntryUndoes(w: World, m: Machine, rec: Record, e: SourceEntry, before: Option<map<string, Entry>>, from: nat)
    requires Undoes(before, m.disk.dropIns, rec) && from <= m.writes && NoPartial(w, from, m.writes)
    ensures EntryMoved(w, before, from, m, rec, e, MigrateEntry(w, m, rec, e))
  {
    if !IsConf(e) {
      CannotCopyOne(w, Files(before), e, m, m);
    } else if !w.files(m.files) {
      CannotCopyOne(w, Files(before), e, m, Tried(m));
    } else if e.name in Files(m.disk.dropIns) {
      SeenUndoes(w, m, rec, e, before, from);
    } else {
      NewUndoes(w, m, rec, e, before, from);
    }
  }

  /** Nothing copied is odd, so whatever is was there before. */
  lemma OddIsThere(before: Option<map<string, Entry>>, after: Option<map<string, Entry>>, rec: Record, name: string)
    requires Undoes(before, after, rec)
    ensures name in Files(after) && Files(after)[name].Odd? <==> name in Files(before) && Files(before)[name].Odd?
  {
    assert name in Files(before) <==> name in Files(after) - Names(rec.copied);
  }

  /** Every entry is a drop-in that the new unit has too, with equal contents. */
  ghost predicate AllMigrated(entries: seq<SourceEntry>, files: map<string, Entry>) {
    forall i :: 0 <= i < |entries| ==>
      DropIn(entries[i]) && entries[i].name in files && files[entries[i].name] == entries[i].entry
  }

  /** Copying fails over a list exactly if it fails at its head or over the rest. */
  lemma CannotCopySplits(
      w: World, before: map<string, Entry>, entries: seq<SourceEntry>, m: Machine, s: Machine, t: Machine)
    requires entries != [] && m.files <= s.files <= t.files && m.writes <= s.writes <= t.writes
    ensures CannotCopy(w, before, entries, m, t)
       <==> CannotCopy(w, before, entries[..1], m, s) || CannotCopy(w, before, entries[1..], s, t)
  {
    assert entries == entries[..1] + entries[1..];
    forall i | 1 <= i < |entries| ensures entries[i] == entries[1..][i - 1] {}
    assert entries[..1][0] == entries[0];
  }

  /** What was taken stays taken: files are added and never overwritten. */
  lemma TakenStays(m: Machine, p: Progress, t: Machine, e: SourceEntry)
    requires Taken(m, p, e) && Grows(Files(p.m.disk.dropIns), Files(t.disk.dropIns))
    ensures Retains(Files(m.disk.dropIns), e) <==> !Migrated(Files(t.disk.dropIns), e)
    ensures Grows(Files(m.disk.dropIns), Files(t.disk.dropIns))
  {
  }

  ghost predicate Moved(w: World, before: Option<map<string, Entry>>, from: nat,
                        m: Machine, rec: Record, entries: seq<SourceEntry>, retained: bool, p: Progress)
  {
    && OnlyCopies(m, rec, p)
    && Recorded(w, before, from, p.m, p.rec)
    && (p.ok <==> !CannotCopy(w, Files(before), entries, m, p.m))
    && (p.ok ==>
          && Grows(Files(m.disk.dropIns), Files(p.m.disk.dropIns))
          && (p.rec.retained <==> retained || !AllMigrated(entries, Files(p.m.disk.dropIns))))
  }

  lemma {:induction false} MigrateMoves(
      w: World, m: Machine, rec: Record, entries: seq<SourceEntry>, retained: bool,
      before: Option<map<string, Entry>>, from: nat)
    requires Undoes(before, m.disk.dropIns, rec) && from <= m.writes && NoPartial(w, from, m.writes)
    ensures Moved(w, before, from, m, rec, entries, retained, Migrate(w, m, rec, entries, retained))
    decreases |entries|
  {
    if entries != [] {
      var e, rest := entries[0], entries[1..];
      var q, kept := MigrateEntry(w, m, rec, e), retained || Retains(Files(m.disk.dropIns), e);
      EntryUndoes(w, m, rec, e, before, from);
      assert entries[..1] == [e];
      if !q.ok {
        CannotCopySplits(w, Files(before), entries, m, q.m, q.m);
      } else {
        WrittenIsUndone(w, before, from, m, q);
        MigrateMoves(w, q.m, q.rec, rest, kept, before, from);
        MovedLonger(w, before, from, m, rec, entries, retained, q, Migrate(w, q.m, q.rec, rest, kept));
      }
    }
  }

  lemma WrittenIsUndone(w: World, before: Option<map<string, Entry>>, from: nat, m: Machine, q: Progress)
    requires Recorded(w, before, from, q.m, q.rec) && m.writes <= q.m.writes
    requires from <= m.writes && NoPartial(w, from, m.writes) && AllWritten(w, m.writes, q.m.writes)
    ensures Undoes(before, q.m.disk.dropIns, q.rec) && NoPartial(w, from, q.m.writes)
  {
    if from < q.m.writes {
      assert q.m.writes - 1 < m.writes || w.writes(q.m.writes - 1).Done?;
      assert !w.writes(q.m.writes - 1).Partial?;
    }
  }

  lemma MovedLonger(w: World, before: Option<map<string, Entry>>, from: nat, m: Machine, rec: Record,
                    entries: seq<SourceEntry>, retained: bool, q: Progress, p: Progress)
    requires entries != [] && OnlyCopies(m, rec, q) && Taken(m, q, entries[0])
    requires !CannotCopy(w, Files(before), entries[..1], m, q.m)
    requires var kept := retained || Retains(Files(m.disk.dropIns), entries[0]);
             Moved(w, before, from, q.m, q.rec, entries[1..], kept, p)
    ensures Moved(w, before, from, m, rec, entries, retained, p)
  {
    var rest := entries[1..];
    CannotCopySplits(w, Files(before), entries, m, q.m, p.m);
    if p.ok {
      TakenStays(m, q, p.m, entries[0]);
      var files := Files(p.m.disk.dropIns);
      assert AllMigrated(entries, files) <==> Migrated(files, entries[0]) && AllMigrated(rest, files) by {
        forall i | 0 <= i < |rest| ensures rest[i] == entries[i + 1] {}
        assert AllMigrated(rest, files) ==> forall i :: 1 <= i < |entries| ==> entries[i] == rest[i - 1];
      }
    }
  }

  /** The new unit has its own files unchanged, every drop-in's name, and nothing but copies besides. */
  ghost predicate Copied(before: map<string, Entry>, after: map<string, Entry>, entries: seq<SourceEntry>) {
    && Grows(before, after)
    && (forall i :: 0 <= i < |entries| && DropIn(entries[i]) ==> entries[i].name in after)
    && (forall name :: name in after && name !in before ==> CopyOf(name, after[name], entries))
  }

  ghost predicate CopyOf(name: string, entry: Entry, entries: seq<SourceEntry>) {
    exists i :: 0 <= i < |entries| && DropIn(entries[i]) && entries[i].name == name && entries[i].entry == entry
  }

  lemma EntryCopies(w: World, m: Machine, rec: Record, e: SourceEntry)
    requires MigrateEntry(w, m, rec, e).ok
    ensures Copied(Files(m.disk.dropIns), Files(MigrateEntry(w, m, rec, e).m.disk.dropIns), [e])
  {
    assert [e][0] == e;
  }

  lemma CopiesLonger(
      a: map<string, Entry>, b: map<string, Entry>, c: map<string, Entry>, entries: seq<SourceEntry>)
    requires entries != [] && Copied(a, b, entries[..1]) && Copied(b, c, entries[1..])
    ensures Copied(a, c, entries)
  {
    forall i | 0 <= i < |entries| && DropIn(entries[i]) ensures entries[i].name in c {
      if i == 0 { assert entries[..1][0] == entries[0]; } else { assert entries[1..][i - 1] == entries[i]; }
    }
    forall name | name in c && name !in a ensures CopyOf(name, c[name], entries) {
      if name in b {
        var i :| 0 <= i < 1 && DropIn(entries[..1][i]) && entries[..1][i].name == name && entries[..1][i].entry == b[name];
        assert entries[0] == entries[..1][i];
      } else {
        var i :| 0 <= i < |entries| - 1 && DropIn(entries[1..][i]) && entries[1..][i].name == name
                 && entries[1..][i].entry == c[name];
        assert entries[i + 1] == entries[1..][i];
      }
    }
  }

  /** A migration that succeeds copies the drop-ins the new unit lacks, overwrites none, and adds nothing else. */
  lemma {:induction false} MigrationCopies(w: World, m: Machine, rec: Record, entries: seq<SourceEntry>, retained: bool)
    requires Migrate(w, m, rec, entries, retained).ok
    ensures Copied(Files(m.disk.dropIns), Files(Migrate(w, m, rec, entries, retained).m.disk.dropIns), entries)
    decreases |entries|
  {
    if entries != [] {
      var q, kept := MigrateEntry(w, m, rec, entries[0]), retained || Retains(Files(m.disk.dropIns), entries[0]);
      EntryCopies(w, m, rec, entries[0]);
      assert entries[..1] == [entries[0]];
      MigrationCopies(w, q.m, q.rec, entries[1..], kept);
      CopiesLonger(Files(m.disk.dropIns), Files(q.m.disk.dropIns),
                   Files(Migrate(w, q.m, q.rec, entries[1..], kept).m.disk.dropIns), entries);
    }
  }

  // ---- giving back what was there ----

  function RestoreOperations(rec: Record): nat {
    (if rec.previous.Some? && !rec.changed then 0 else 1) + |rec.copied|
  }

  function Without(directory: Option<map<string, Entry>>, names: seq<string>): Option<map<string, Entry>> {
    if directory.Some? then Some(directory.value - Names(names)) else None
  }

  lemma WithoutFirst(directory: Option<map<string, Entry>>, names: seq<string>)
    requires names != []
    ensures Without(Without(directory, [names[0]]), names[1..]) == Without(directory, names)
  {
    assert Names(names) == Names([names[0]]) + Names(names[1..]) by {
      assert names == [names[0]] + names[1..];
    }
    if directory.Some? {
      var all := directory.value;
      assert all - Names([names[0]]) - Names(names[1..]) == all - Names(names);
    }
  }

  lemma {:induction false} RemovalsExactly(w: World, m: Machine, names: seq<string>)
    ensures var o := RemoveCopies(w, m, names);
            && (o.ok <==> AllFiles(w, m.files, m.files + |names|))
            && m.files <= o.m.files <= m.files + |names|
            && o.m == m.(disk := m.disk.(dropIns := o.m.disk.dropIns), files := o.m.files)
            && (o.ok ==> o.m.files == m.files + |names| && o.m.disk.dropIns == Without(m.disk.dropIns, names))
            && (!o.ok ==> !AllFiles(w, m.files, o.m.files))
    decreases |names|
  {
    if names == [] {
      assert m.disk.dropIns.Some? ==> m.disk.dropIns.value - Names([]) == m.disk.dropIns.value;
    } else if w.files(m.files) {
      var first := Without(m.disk.dropIns, [names[0]]);
      var t := Tried(m).(disk := m.disk.(dropIns := first));
      assert Names([names[0]]) == {names[0]};
      RemovalsExactly(w, t, names[1..]);
      WithoutFirst(m.disk.dropIns, names);
    } else {
      assert !w.files(m.files) && m.files < m.files + |names|;
    }
  }

  /** What deleting the record's files, and a directory it created, leaves. */
  function Restored(w: World, m: Machine, rec: Record): Option<map<string, Entry>> {
    var left := Without(m.disk.dropIns, rec.copied);
    if rec.created && w.files(m.files + RestoreOperations(rec)) && left == Some(map[]) then None else left
  }

  /** Restoration completes exactly if each of its removals and writes succeeds. */
  ghost predicate RestoredTo(w: World, m: Machine, rec: Record, o: Outcome) {
    && (o.ok <==> AllFiles(w, m.files, m.files + RestoreOperations(rec)))
    && m.files <= o.m.files && o.m.log == m.log && o.m.now == m.now && o.m.writes == m.writes
    && (o.ok ==> o.m.files == m.files + RestoreOperations(rec) + if rec.created then 1 else 0)
    && (o.ok ==> o.m.disk == m.disk.(definition := rec.previous, dropIns := Restored(w, m, rec)))
    && o.m.disk.legacy == m.disk.legacy && o.m.disk.source == m.disk.source
  }

  lemma RestoreExactly(w: World, m: Machine, rec: Record)
    requires !rec.changed ==> rec.previous == m.disk.definition
    ensures RestoredTo(w, m, rec, RestoreFiles(w, m, rec))
  {
    var defined := RestoreDefinition(w, m, rec);
    if defined.ok {
      RemovalsExactly(w, defined.m, rec.copied);
    } else {
      assert !w.files(m.files);
    }
  }

  /** With nothing left half-written, the directory is as before exactly if no file operation failed. */
  lemma RestoredIsBefore(w: World, m: Machine, rec: Record, before: Option<map<string, Entry>>)
    requires Undoes(before, m.disk.dropIns, rec)
    ensures Restored(w, m, rec) == before <==> !rec.created || w.files(m.files + RestoreOperations(rec))
  {
    if m.disk.dropIns.Some? {
      assert Without(m.disk.dropIns, rec.copied) == Some(Files(before));
    }
  }

  lemma RestoredKeepsPart(
      w: World, m: Machine, rec: Record, before: Option<map<string, Entry>>, name: string, part: Text)
    requires LeavesPart(before, m.disk.dropIns, rec, name, part)
    ensures Restored(w, m, rec) == Some(Files(before)[name := File(part)]) && Restored(w, m, rec) != before
  {
    assert name in Files(before)[name := File(part)];
    assert Without(m.disk.dropIns, rec.copied) == Some(Files(before)[name := File(part)]);
  }
}
