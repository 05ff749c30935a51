/** `Disk` as the program has it: an object whose methods update the directory under the lock.
    Each method performs exactly the step of `DiskModel` that its contract names. */
module DiskObject {
  import opened CacheTypes
  import opened Eviction
  import opened Sorting
  import opened DiskModel
  import DiskRuns
  import LossyMap
  import MetadataJson

  type Size = n: nat | 0 < n witness 1

  /** How a blob is read: the buffer, the offset at which reading fails, if it does, and whether closing fails. */
  datatype Download = Download(buffer: Size, breaksAt: Option<nat>, closeFails: bool) {
    predicate Breaks(blob: Blob) {
      breaksAt.Some? && breaksAt.value < |blob|
    }

    predicate Fails(blob: Blob) {
      Breaks(blob) || closeFails
    }

    /** What comes out: everything, or the whole buffers before the one that fails. */
    function Yield(blob: Blob): (body: Blob)
      ensures body <= blob && (Breaks(blob) <==> |body| < |blob|)
      ensures body == [] <==> blob == [] || (Breaks(blob) && breaksAt.value < buffer)
    {
      if Breaks(blob) then
        WholeBuffers(breaksAt.value, buffer);
        blob[..breaksAt.value / buffer * buffer]
      else blob
    }

    /** An error after the first bytes comes too late to change the status. */
    function Status(blob: Blob): nat {
      if Fails(blob) && Yield(blob) == [] then 500 else 200
    }
  }

  lemma WholeBuffers(at: nat, buffer: Size)
    ensures 0 <= at / buffer * buffer <= at < at / buffer * buffer + buffer
    ensures at / buffer * buffer == 0 <==> at < buffer
  {
  }

  lemma BufferAt(count: nat, at: nat, buffer: Size)
    requires count * buffer <= at < count * buffer + buffer
    ensures at / buffer * buffer == count * buffer
  {
    WholeBuffers(at, buffer);
    var q := at / buffer;
    assert q < count ==> (q + 1) * buffer <= count * buffer;
    assert q > count ==> (count + 1) * buffer <= q * buffer;
  }

  /** A read that breaks in its first buffer is reported; one that breaks later yields a proper, non-empty prefix of
      the blob with the status of success. */
  lemma LateErrorsAreLost(download: Download, blob: Blob)
    requires download.Breaks(blob)
    ensures var at, body := download.breaksAt.value, download.Yield(blob);
            && (at < download.buffer ==> download.Status(blob) == 500 && body == [])
            && (at >= download.buffer ==> download.Status(blob) == 200 && 0 < |body| < |blob|
                                          && at - |body| < download.buffer)
  {
    WholeBuffers(download.breaksAt.value, download.buffer);
  }

  class Disk {
    const limitBytes: nat
    var clock: nat
    var names: map<Key, Ino>
    var files: map<Ino, File>
    var uploads: map<Ino, Upload>
    var readers: map<nat, Reader>

    ghost function Model(): State
      reads this
    {
      State(limitBytes, clock, names, files, uploads, readers)
    }

    ghost predicate Valid()
      reads this
    {
      WellFormed(Model())
    }

    constructor (limitBytes: nat)
      requires limitBytes < TWO_64
      ensures Valid() && Model() == Empty(limitBytes)
    {
      this.limitBytes := limitBytes;
      clock := 0;
      names, files, uploads, readers := map[], map[], map[], map[];
    }

    /** `os.ReadDir` and `Info` on every name. */
    method ReadDir() returns (entries: seq<DirEntry>)
      requires Valid()
      ensures Lists(Model(), names.Keys, entries)
    {
      entries := [];
      var rest := names.Keys;
      while rest != {}
        invariant rest <= names.Keys && Lists(Model(), names.Keys - rest, entries)
        decreases rest
      {
        var k :| k in rest;
        ListsMore(Model(), names.Keys - rest, entries, k);
        entries := entries + [DirEntry(k, files[names[k]].size, files[names[k]].modTime)];
        assert names.Keys - (rest - {k}) == names.Keys - rest + {k};
        rest := rest - {k};
      }
      assert names.Keys - rest == names.Keys;
    }

    /** The removal loop of `evict`, on a sorted listing and the `uint64` sum of its sizes. */
    method RemoveOldest(entries: seq<DirEntry>, total: nat, needBytes: nat, undeletable: set<Key>) returns (ok: bool)
      requires total == Wrap(Sum(entries))
      modifies this`names
      ensures var r := Remove(entries, needBytes, limitBytes, undeletable);
              names == old(names) - First(NamesOf(entries), r.removed) && ok == r.ok
    {
      hide Wrap, Remove, Sum, First, FitsWrapped;
      ghost var r := Remove(entries, needBytes, limitBytes, undeletable);
      ghost var order := NamesOf(entries);
      var i, usedBytes := 0, total;
      assert entries[0..] == entries;
      NoneFirst(order);
      while i < |entries|
        invariant 0 <= i <= r.removed <= |entries|
        invariant usedBytes == Wrap(Sum(entries[i..]))
        invariant Remove(entries[i..], needBytes, limitBytes, undeletable) == Outcome(r.removed - i, r.ok)
        invariant names == old(names) - First(order, i)
      {
        RemoveTurn(entries, i, needBytes, limitBytes, undeletable);
        if Wrap(usedBytes + needBytes) <= limitBytes {
          return true;
        }
        if entries[i].name in undeletable {
          return false;
        }
        FirstOfNext(order, i);
        names := names - {entries[i].name};
        usedBytes := Wrap(usedBytes - entries[i].size);
        i := i + 1;
      }
      RemoveNothing(needBytes, limitBytes, undeletable);
      return true;
    }

    /** `evict`: removes the oldest entries until the new one fits, counting in `uint64`. */
    method Evict(needBytes: nat, fault: AcceptFault) returns (ok: bool, ghost order: seq<Key>)
      requires Valid()
      modifies this`names
      ensures ModTimeOrder(old(Model()), order)
      ensures fault.list ==> names == old(names) && !ok
      ensures !fault.list ==>
                var r := Eviction.Evict(Listing(old(Model()), order), needBytes, limitBytes, fault.undeletable);
                names == old(names) - First(order, r.removed) && ok == r.ok
    {
      if needBytes > limitBytes || fault.list {
        order := SomeOrder(Model());
        assert First(order, 0) == {};
        return false, order;
      }
      var entries := ReadDir();
      SortedListing(Model(), entries);
      entries := SortByModTime(entries);
      order := NamesOf(entries);
      var usedBytes := SumSizes(entries);
      ok := RemoveOldest(entries, usedBytes, needBytes, fault.undeletable);
    }

    /** `accept`: makes room and renames the temporary file into the directory. */
    method Accept(ino: Ino, fault: AcceptFault) returns (ok: bool, ghost order: seq<Key>)
      requires Valid() && ino in uploads && uploads[ino].size.Some?
      modifies this
      ensures Enabled(old(Model()), Step.Accept(ino, order, fault))
      ensures Valid() && Model() == Apply(old(Model()), Step.Accept(ino, order, fault))
      ensures ok == AcceptOutcome(old(Model()), ino, order, fault).ok
    {
      ghost var s := Model();
      ok, order := Evict(uploads[ino].size.value, fault);
      ghost var r := AcceptOutcome(s, ino, order, fault);
      assert s.names - {} == s.names;
      assert names == s.names - r.removed && r.ok == (ok && !fault.rename);
      hide *;
      if ok && fault.rename {
        ok := false;
      }
      if ok {
        names := names[uploads[ino].key := ino];
      }
      uploads := uploads - {ino};
      clock := clock + 1;
      AcceptedModel(this, s, ino, order, fault);
    }

    /** `Get`: opens the entry, stamps it and reads its container. */
    method Get(key: Key, id: nat, trouble: GetFault) returns (found: Option<Entry>, failed: bool)
      requires Valid() && id !in readers
      modifies this
      ensures Valid() && Model() == Apply(old(Model()), Step.Get(key, id, trouble))
      ensures failed <==> old(key in names) && !trouble.NoFault?
      ensures !failed ==> found == LossyMap.Lookup(DiskRuns.Visible(old(Model())), key)
      ensures found.Some? <==> id in readers
    {
      hide Apply, WellFormed, DiskRuns.Visible, LossyMap.Lookup;
      ghost var s := Model();
      ApplyKeepsWellFormed(s, Step.Get(key, id, trouble));
      FindsWhatIsVisible(s, key);
      found, failed := None, key in names;
      if key !in names || trouble.ChtimesFails? {
        GetStops(s, key, id, trouble);
      } else {
        GetOpens(s, key, id, trouble);
        var ino := names[key];
        files := files[ino := files[ino].(modTime := clock)];
        if trouble.NoFault? {
          readers := readers[id := Reader(ino, 0, true)];
          found, failed := Some(files[ino].entry), false;
        }
      }
      clock := clock + 1;
    }

    /** `Reader.Read`: the next `n` bytes of the blob. */
    method Read(id: nat, n: nat) returns (chunk: Blob)
      requires Valid() && Enabled(Model(), Step.Read(id, n))
      modifies this`clock, this`readers
      ensures Valid() && Model() == Apply(old(Model()), Step.Read(id, n))
      ensures DiskRuns.Visible(Model()) == DiskRuns.Visible(old(Model()))
      ensures readers == old(readers)[id := Reader(old(readers[id]).ino, old(readers[id]).pos + n, true)]
      ensures chunk == old(files[readers[id].ino].entry.blob[readers[id].pos..readers[id].pos + n])
    {
      hide WellFormed, DiskRuns.Visible, ModTimeOrder, AcceptOutcome;
      DiskRuns.IsInvisible(Model(), Step.Read(id, n));
      var r := readers[id];
      chunk := files[r.ino].entry.blob[r.pos..r.pos + n];
      readers := readers[id := r.(pos := r.pos + n)];
      clock := clock + 1;
    }

    /** `Reader.Close`. */
    method Close(id: nat)
      requires Valid() && Enabled(Model(), Step.Close(id))
      modifies this`clock, this`readers
      ensures Valid() && Model() == Apply(old(Model()), Step.Close(id))
      ensures DiskRuns.Visible(Model()) == DiskRuns.Visible(old(Model()))
      ensures readers == old(readers)[id := old(readers[id]).(open := false)]
    {
      hide WellFormed, DiskRuns.Visible, ModTimeOrder, AcceptOutcome;
      DiskRuns.IsInvisible(Model(), Step.Close(id));
      readers := readers[id := readers[id].(open := false)];
      clock := clock + 1;
    }

    /** `io.Copy` from a reader that `Get` has just opened, and its `Close`, which a read error skips. */
    method CopyOut(id: nat, download: Download) returns (body: Blob, ok: bool)
      requires Valid()
      requires id in readers && readers[id].open && readers[id].pos == 0
      modifies this`clock, this`readers
      ensures Valid() && forall r :: r in old(readers) && r != id ==> r in readers && readers[r] == old(readers)[r]
      ensures id in readers && readers[id].open == !ok
      ensures var blob := DiskRuns.Opened(old(Model()), id).blob;
              body == download.Yield(blob) && ok == !download.Fails(blob)
    {
      hide Apply, WellFormed, ModTimeOrder;
      ReaderIsOk(Model(), id);
      ghost var readers0 := readers;
      var ino := readers[id].ino;
      var blob := files[ino].entry.blob;
      body := [];
      ghost var count := 0;
      while |body| < |blob|
        invariant body <= blob && Valid()
        invariant readers == readers0[id := Reader(ino, |body|, true)]
        invariant download.breaksAt.Some? ==> |body| <= download.breaksAt.value
        invariant |body| < |blob| ==> |body| == count * download.buffer
      {
        var n := if |blob| - |body| < download.buffer then |blob| - |body| else download.buffer;
        if download.breaksAt.Some? && download.breaksAt.value < |body| + n {
          BufferAt(count, download.breaksAt.value, download.buffer);
          return body, false;
        }
        var chunk := Read(id, n);
        NextChunk(blob, body, n);
        body := body + chunk;
        count := count + 1;
      }
      if download.closeFails {
        return body, false;
      }
      Close(id);
      return body, true;
    }

    method Delete(key: Key, fails: bool) returns (notFound: bool, failed: bool)
      requires Valid()
      modifies this`clock, this`names
      ensures Valid() && Model() == Apply(old(Model()), Step.Delete(key, fails))
      ensures notFound <==> old(key !in names)
      ensures failed <==> old(key in names) && fails
    {
      ghost var s := Model();
      ApplyKeepsWellFormed(s, Step.Delete(key, fails));
      clock := clock + 1;
      notFound, failed := key !in names, key in names && fails;
      if !fails {
        names := names - {key};
      }
    }

    /** `Put` creates its temporary file, which no Get sees. */
    method Begin(ino: Ino, key: Key, entry: StoredEntry)
      requires Valid() && ino !in files && ino !in uploads
      modifies this`clock, this`uploads
      ensures Valid() && Model() == Apply(old(Model()), Step.Begin(ino, key, entry))
      ensures DiskRuns.Visible(Model()) == DiskRuns.Visible(old(Model()))
      ensures uploads == old(uploads)[ino := Upload(key, entry, 0, None)]
    {
      hide WellFormed, DiskRuns.Visible, ModTimeOrder, AcceptOutcome;
      DiskRuns.IsInvisible(Model(), Step.Begin(ino, key, entry));
      uploads := uploads[ino := Upload(key, entry, 0, None)];
      clock := clock + 1;
    }

    /** `io.Copy` moves the next `n` bytes of the blob, which no Get sees. */
    method Copy(ino: Ino, n: nat)
      requires Valid() && Enabled(Model(), Step.Copy(ino, n))
      modifies this`clock, this`uploads
      ensures Valid() && Model() == Apply(old(Model()), Step.Copy(ino, n))
      ensures DiskRuns.Visible(Model()) == DiskRuns.Visible(old(Model()))
      ensures uploads == old(uploads)[ino := old(uploads[ino]).(copied := old(uploads[ino]).copied + n)]
    {
      hide WellFormed, DiskRuns.Visible, ModTimeOrder, AcceptOutcome;
      DiskRuns.IsInvisible(Model(), Step.Copy(ino, n));
      uploads := uploads[ino := uploads[ino].(copied := uploads[ino].copied + n)];
      clock := clock + 1;
    }

    /** `io.Copy` has seen EOF; the container and the temporary file are closed, still unseen. */
    method Seal(ino: Ino, size: nat)
      requires Valid() && Enabled(Model(), Step.Seal(ino, size))
      modifies this`clock, this`uploads, this`files
      ensures Valid() && Model() == Apply(old(Model()), Step.Seal(ino, size))
      ensures DiskRuns.Visible(Model()) == DiskRuns.Visible(old(Model()))
      ensures uploads == old(uploads)[ino := old(uploads[ino]).(size := Some(size))]
      ensures files == old(files)[ino := File(old(clock), size, old(uploads[ino]).key, old(uploads[ino]).entry)]
      ensures clock == old(clock) + 1
    {
      hide WellFormed, DiskRuns.Visible, ModTimeOrder, AcceptOutcome;
      DiskRuns.IsInvisible(Model(), Step.Seal(ino, size));
      files := files[ino := File(clock, size, uploads[ino].key, uploads[ino].entry)];
      uploads := uploads[ino := uploads[ino].(size := Some(size))];
      clock := clock + 1;
    }

    /** Any failure before `accept`: the temporary file is removed. */
    method Abort(ino: Ino)
      requires Valid() && ino in uploads
      modifies this`clock, this`uploads
      ensures Valid() && Model() == Apply(old(Model()), Step.Abort(ino))
      ensures DiskRuns.Visible(Model()) == DiskRuns.Visible(old(Model()))
      ensures uploads == old(uploads) - {ino}
    {
      hide WellFormed, DiskRuns.Visible, ModTimeOrder, AcceptOutcome;
      DiskRuns.IsInvisible(Model(), Step.Abort(ino));
      uploads := uploads - {ino};
      clock := clock + 1;
    }

    /** The part of `Put` that runs outside the lock: it drains the blob reader into a temporary file,
        a buffer at a time; `breaksAt` is the offset at which the reader fails, if it does. */
    method WriteTemporary(ino: Ino, key: Key, entry: StoredEntry, buffer: nat, breaksAt: Option<nat>, size: nat)
      returns (ok: bool)
      requires Valid() && ino !in files && ino !in uploads && buffer > 0
      requires |entry.blob| <= size < TWO_63
      modifies this`clock, this`uploads, this`files
      ensures Valid()
      ensures ok <==> breaksAt.None? || breaksAt.value >= |entry.blob|
      ensures !ok ==> Model() == old(Model()).(clock := clock)
      ensures ok ==> clock > 0 && Model() == Written(old(Model()).(clock := clock), ino, key, entry, size)
    {
      hide Apply, WellFormed, DiskRuns.Visible, ModTimeOrder, AcceptOutcome, MetadataJson.ValidUtf8;
      ghost var s := Model();
      Begin(ino, key, entry);
      var copied := 0;
      while copied < |entry.blob|
        invariant copied <= |entry.blob| && Valid()
        invariant uploads == s.uploads[ino := Upload(key, entry, copied, None)] && files == s.files
        invariant breaksAt.Some? ==> copied <= breaksAt.value
      {
        var n := if |entry.blob| - copied < buffer then |entry.blob| - copied else buffer;
        if breaksAt.Some? && breaksAt.value < copied + n {
          Abort(ino);
          assert s.uploads[ino := Upload(key, entry, copied, None)] - {ino} == s.uploads;
          return false;
        }
        Copy(ino, n);
        copied := copied + n;
      }
      Seal(ino, size);
      assert uploads == s.uploads[ino := Upload(key, entry, |entry.blob|, Some(size))];
      assert files == s.files[ino := File(clock - 1, size, key, entry)];
      return true;
    }

    /** `Put`, run to completion: it either binds the key to the whole blob, losing only what `evict`
        removed, or it only loses; it loses nothing unless it came to `evict`. */
    method Put(ino: Ino, key: Key, entry: Entry, buffer: nat, breaksAt: Option<nat>, size: nat, fault: AcceptFault)
      returns (ok: bool, ghost lost: set<Key>)
      requires Valid() && ino !in files && ino !in uploads && buffer > 0
      requires |entry.blob| <= size < TWO_63
      modifies this
      ensures Valid()
      ensures DiskRuns.Visible(Model()) == LossyMap.Apply(DiskRuns.Visible(old(Model())),
                if ok then LossyMap.Put(key, AsStored(entry), lost) else LossyMap.Lose(lost))
      ensures (breaksAt.Some? && breaksAt.value < |entry.blob|) || size > limitBytes ==> !ok && lost == {}
      ensures (breaksAt.Some? ==> breaksAt.value >= |entry.blob|) && size <= limitBytes ==>
                fault == AcceptFault(false, {}, false) ==> ok
    {
      ghost var s0 := Model();
      ok := WriteTemporary(ino, key, AsStored(entry), buffer, breaksAt, size);
      WritingIsInvisible(s0, Model(), ino);
      hide *;
      if !ok {
        lost := {};
        NothingLost(DiskRuns.Visible(s0));
        return;
      }
      ghost var s1 := Model();
      ghost var order;
      ok, order := Accept(ino, fault);
      DiskRuns.StepRefines(s1, Step.Accept(ino, order, fault));
      lost := AcceptOutcome(s1, ino, order, fault).removed;
      AcceptMeans(s1, ino, order, fault);
    }
  }

  lemma FindsWhatIsVisible(s: State, key: Key)
    requires WellFormed(s)
    ensures key in s.names ==> s.names[key] in s.files
    ensures LossyMap.Lookup(DiskRuns.Visible(s), key)
            == if key in s.names then Some(s.files[s.names[key]].entry) else None
  {
    assert key in s.names ==> NameOk(s, key);
  }

  lemma GetStops(s: State, key: Key, id: nat, trouble: GetFault)
    requires WellFormed(s) && id !in s.readers && (key !in s.names || trouble.ChtimesFails?)
    ensures Apply(s, Step.Get(key, id, trouble)) == s.(clock := s.clock + 1)
  {
    hide WellFormed;
  }

  lemma GetOpens(s: State, key: Key, id: nat, trouble: GetFault)
    requires WellFormed(s) && id !in s.readers && key in s.names && !trouble.ChtimesFails?
    requires s.names[key] in s.files
    ensures var ino := s.names[key];
            Apply(s, Step.Get(key, id, trouble)) ==
              s.(clock := s.clock + 1,
                 files := s.files[ino := s.files[ino].(modTime := s.clock)],
                 readers := if trouble.NoFault? then s.readers[id := Reader(ino, 0, true)] else s.readers)
  {
    hide WellFormed;
  }

  lemma NextChunk(blob: Blob, body: Blob, n: nat)
    requires body <= blob && |body| + n <= |blob|
    ensures body + blob[|body|..|body| + n] <= blob
  {
  }

  lemma NothingLost(m: LossyMap.Contents)
    ensures LossyMap.Apply(m, LossyMap.Lose({})) == m
  {
    assert m - {} == m;
  }

  lemma AcceptMeans(s: State, ino: Ino, order: seq<Key>, fault: AcceptFault)
    requires WellFormed(s) && Enabled(s, Step.Accept(ino, order, fault))
    ensures var r := AcceptOutcome(s, ino, order, fault);
            var u := s.uploads[ino];
            && DiskRuns.Meaning(s, Step.Accept(ino, order, fault))
               == (if r.ok then LossyMap.Put(u.key, u.entry, r.removed) else LossyMap.Lose(r.removed))
            && (u.size.value > s.limit ==> r == AcceptResult({}, false))
            && (fault == AcceptFault(false, {}, false) && u.size.value <= s.limit ==> r.ok)
  {
    if s.uploads[ino].size.value > s.limit {
      RejectsWhatCannotFit(s, ino, order, fault);
    } else if fault == AcceptFault(false, {}, false) {
      AcceptsWhatFits(s, ino, order, fault);
    }
  }

  lemma WritingIsInvisible(s: State, s': State, ino: Ino)
    requires WellFormed(s) && WellFormed(s') && s'.names == s.names && ino !in s.files
    requires forall i :: i in s.files ==> i in s'.files && s'.files[i] == s.files[i]
    ensures DiskRuns.Visible(s') == DiskRuns.Visible(s)
  {
    forall k | k in s.names ensures NameOk(s, k) {}
  }

  /** Without faults, an entry no larger than the limit is accepted. */
  lemma {:induction false} AcceptsWhatFits(s: State, ino: Ino, order: seq<Key>, fault: AcceptFault)
    requires WellFormed(s) && ino in s.uploads && s.uploads[ino].size.Some? && ModTimeOrder(s, order)
    requires fault == AcceptFault(false, {}, false)
    ensures AcceptOutcome(s, ino, order, fault).ok <==> s.uploads[ino].size.value <= s.limit
  {
    RemoveStopsFirst(Listing(s, order), s.uploads[ino].size.value, s.limit, {});
  }

  /** What goes wrong shows: an entry that is accepted met no fault, is within the limit and needed no file removed
      that cannot be removed; without a listing nothing is removed. */
  lemma {:induction false} FaultsShow(s: State, ino: Ino, order: seq<Key>, fault: AcceptFault)
    requires WellFormed(s) && ino in s.uploads && s.uploads[ino].size.Some? && ModTimeOrder(s, order)
    ensures var r := AcceptOutcome(s, ino, order, fault);
            && (r.ok ==> !fault.list && !fault.rename && s.uploads[ino].size.value <= s.limit)
            && (fault.list ==> r == AcceptResult({}, false))
            && (fault.rename ==> !r.ok)
            && r.removed !! fault.undeletable
  {
    if !fault.list {
      RemovesRemovable(s, order, s.uploads[ino].size.value, fault.undeletable);
    }
    hide WellFormed, ModTimeOrder, Listing, First, Remove;
  }

  lemma {:induction false} RemovesRemovable(s: State, order: seq<Key>, need: nat, undeletable: set<Key>)
    requires forall k :: k in order ==> k in s.names && s.names[k] in s.files
    ensures First(order, Eviction.Evict(Listing(s, order), need, s.limit, undeletable).removed) !! undeletable
  {
    var es := Listing(s, order);
    RemoveStopsFirst(es, need, s.limit, undeletable);
    var n := Eviction.Evict(es, need, s.limit, undeletable).removed;
    forall k | k in First(order, n) ensures k !in undeletable {
      var i :| 0 <= i < n && order[..n][i] == k;
      assert es[i].name == k;
    }
  }

  lemma RejectsWhatCannotFit(s: State, ino: Ino, order: seq<Key>, fault: AcceptFault)
    requires WellFormed(s) && ino in s.uploads && s.uploads[ino].size.Some? && ModTimeOrder(s, order)
    requires s.uploads[ino].size.value > s.limit
    ensures AcceptOutcome(s, ino, order, fault) == AcceptResult({}, false)
  {
    assert First(order, 0) == {};
  }

  /** The state once a temporary file is complete and closed. */
  ghost function Written(s: State, ino: Ino, key: Key, entry: StoredEntry, size: nat): State
    requires s.clock > 0
  {
    s.(uploads := s.uploads[ino := Upload(key, entry, |entry.blob|, Some(size))],
       files := s.files[ino := File(s.clock - 1, size, key, entry)])
  }

  lemma AcceptedModel(disk: Disk, s: State, ino: Ino, order: seq<Key>, fault: AcceptFault)
    requires WellFormed(s) && ino in s.uploads && s.uploads[ino].size.Some? && ModTimeOrder(s, order)
    requires var r := AcceptOutcome(s, ino, order, fault);
             var left := s.names - r.removed;
             && disk.limitBytes == s.limit && disk.clock == s.clock + 1
             && disk.names == (if r.ok then left[s.uploads[ino].key := ino] else left)
             && disk.files == s.files && disk.uploads == s.uploads - {ino} && disk.readers == s.readers
    ensures Enabled(s, Step.Accept(ino, order, fault))
    ensures disk.Valid() && disk.Model() == Apply(s, Step.Accept(ino, order, fault))
  {
    hide WellFormed, ModTimeOrder, AcceptOutcome;
    ApplyKeepsWellFormed(s, Step.Accept(ino, order, fault));
  }

  /** `entries` lists exactly the files named by `keys`. */
  ghost predicate Lists(s: State, keys: set<Key>, entries: seq<DirEntry>) {
    && DistinctNames(entries)
    && (forall k :: k in keys <==> exists i :: 0 <= i < |entries| && entries[i].name == k)
    && (forall i :: 0 <= i < |entries| ==> IsEntryOf(s, entries[i]))
  }

  ghost predicate IsEntryOf(s: State, e: DirEntry) {
    && e.name in s.names && s.names[e.name] in s.files
    && e == DirEntry(e.name, s.files[s.names[e.name]].size, s.files[s.names[e.name]].modTime)
  }

  lemma ListsMore(s: State, keys: set<Key>, before: seq<DirEntry>, k: Key)
    requires WellFormed(s) && Lists(s, keys, before) && k in s.names && k !in keys
    ensures NameOk(s, k)
    ensures Lists(s, keys + {k}, before + [DirEntry(k, s.files[s.names[k]].size, s.files[s.names[k]].modTime)])
  {
    assert NameOk(s, k);
    var after := before + [DirEntry(k, s.files[s.names[k]].size, s.files[s.names[k]].modTime)];
    forall j | j in keys + {k} ensures exists i :: 0 <= i < |after| && after[i].name == j {
      if j == k {
        assert after[|before|].name == j;
      } else {
        var i :| 0 <= i < |before| && before[i].name == j;
        assert after[i].name == j;
      }
    }
  }

  ghost function NamesOf(entries: seq<DirEntry>): seq<Key> {
    seq(|entries|, i requires 0 <= i < |entries| => entries[i].name)
  }

  lemma SortedListing(s: State, entries: seq<DirEntry>)
    requires WellFormed(s) && Lists(s, s.names.Keys, entries)
    ensures var sorted := SortByModTime(entries);
            ModTimeOrder(s, NamesOf(sorted)) && Listing(s, NamesOf(sorted)) == sorted
  {
    var sorted := SortByModTime(entries);
    var order := NamesOf(sorted);
    hide WellFormed;
    SortDistinct(entries);
    forall i | 0 <= i < |sorted| ensures IsEntryOf(s, sorted[i]) {
      assert sorted[i] in sorted;
    }
    forall k | k in s.names ensures s.names[k] in s.files && k in order {
      SortedHasName(s, entries, k);
    }
    ListingOfNames(s, sorted);
    hide Lists, IsEntryOf, Listing;
  }

  lemma ListingOfNames(s: State, entries: seq<DirEntry>)
    requires forall i :: 0 <= i < |entries| ==> IsEntryOf(s, entries[i])
    ensures forall k :: k in NamesOf(entries) ==> k in s.names && s.names[k] in s.files
    ensures Listing(s, NamesOf(entries)) == entries
  {
  }

  lemma SortedHasName(s: State, entries: seq<DirEntry>, k: Key)
    requires WellFormed(s) && Lists(s, s.names.Keys, entries) && k in s.names
    ensures s.names[k] in s.files && k in NamesOf(SortByModTime(entries))
  {
    assert NameOk(s, k);
    hide WellFormed;
    var sorted := SortByModTime(entries);
    SortDistinct(entries);
    var i :| 0 <= i < |entries| && entries[i].name == k;
    assert entries[i] in sorted;
    var j :| 0 <= j < |sorted| && sorted[j] == entries[i];
    assert NamesOf(sorted)[j] == k;
  }

  lemma SomeOrder(s: State) returns (order: seq<Key>)
    requires WellFormed(s)
    ensures ModTimeOrder(s, order)
  {
    var entries := SomeListing(s, s.names.Keys);
    SortedListing(s, entries);
    order := NamesOf(SortByModTime(entries));
  }

  lemma {:induction false} SomeListing(s: State, keys: set<Key>) returns (entries: seq<DirEntry>)
    requires WellFormed(s) && keys <= s.names.Keys
    ensures Lists(s, keys, entries)
    decreases keys
  {
    if keys == {} {
      entries := [];
    } else {
      var k :| k in keys;
      var before := SomeListing(s, keys - {k});
      ListsMore(s, keys - {k}, before, k);
      entries := before + [DirEntry(k, s.files[s.names[k]].size, s.files[s.names[k]].modTime)];
      assert keys - {k} + {k} == keys;
    }
  }

  lemma NoneFirst(order: seq<Key>)
    ensures First(order, 0) == {}
  {
  }

  lemma RemoveNothing(need: nat, limit: nat, undeletable: set<Key>)
    ensures Remove([], need, limit, undeletable) == Outcome(0, true)
  {
  }

  /** One turn of the removal loop, with the counter that it keeps. */
  lemma RemoveTurn(es: seq<DirEntry>, i: nat, need: nat, limit: nat, undeletable: set<Key>)
    requires i < |es|
    ensures var used, rest := Wrap(Sum(es[i..])), Remove(es[i + 1..], need, limit, undeletable);
            && Remove(es[i..], need, limit, undeletable) ==
               (if Wrap(used + need) <= limit then Outcome(0, true)
                else if es[i].name in undeletable then Outcome(0, false)
                else Outcome(rest.removed + 1, rest.ok))
            && Wrap(used - es[i].size) == Wrap(Sum(es[i + 1..]))
  {
    hide Wrap;
    assert es[i..][1..] == es[i + 1..];
    WrappedSum(Sum(es[i..]), need);
    WrappedDifference(Sum(es[i + 1..]), es[i].size);
  }

  lemma FirstOfNext(order: seq<Key>, i: nat)
    requires i < |order|
    ensures First(order, i + 1) == First(order, i) + {order[i]}
  {
    assert order[..i + 1] == order[..i] + [order[i]];
  }

  /** `lo.SumBy` over the sizes, in `uint64`. */
  method SumSizes(entries: seq<DirEntry>) returns (usedBytes: nat)
    ensures usedBytes == Wrap(Sum(entries))
  {
    usedBytes := 0;
    for i := 0 to |entries|
      invariant usedBytes == Wrap(Sum(entries[..i]))
    {
      SumOfNext(entries, i);
      usedBytes := Wrap(usedBytes + entries[i].size);
    }
    assert entries[..|entries|] == entries;
  }

  lemma SumOfNext(es: seq<DirEntry>, i: nat)
    requires i < |es|
    ensures Wrap(Wrap(Sum(es[..i])) + es[i].size) == Wrap(Sum(es[..i + 1]))
  {
    SumSplit(es[..i + 1], i);
    assert es[..i + 1][..i] == es[..i];
    assert es[..i + 1][i..] == [es[i]];
    WrappedSum(Sum(es[..i]), es[i].size);
  }

  lemma WrappedSum(a: nat, b: nat)
    ensures Wrap(Wrap(a) + b) == Wrap(a + b)
  {
  }

  lemma WrappedDifference(a: nat, b: nat)
    ensures Wrap(Wrap(a + b) - b) == Wrap(a)
  {
  }
}
