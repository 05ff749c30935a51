/** `internal/cache/disk` as a step system. File contents live in inodes that never change once
    sealed; the directory maps keys to inodes (a file name is the SHA-256 of its key, taken to be
    injective); an open reader holds an inode, so it survives unlink and rename. A Put is
    split where other goroutines can run: everything before `accept` happens without the lock. */
module DiskModel {
  import opened CacheTypes
  import opened Eviction
  import MetadataJson

  type Ino = nat

  /** An entry as a container holds it: its metadata went through JSON. */
  type StoredEntry = e: Entry | MetadataJson.ValidUtf8(e.meta.etag) witness Entry(Metadata([]), [])

  /** What a container that is given `e` holds. */
  function AsStored(e: Entry): StoredEntry {
    MetadataJson.CoercedIsValid(e.meta.etag);
    Entry(MetadataJson.Coerced(e.meta), e.blob)
  }

  datatype File = File(modTime: nat, size: nat, key: Key, entry: StoredEntry)

  /** A Put in progress: `entry.blob` is all that its blob reader will yield before EOF, of which
      `copied` bytes are in the temporary file; `size` is set once the container is closed. */
  datatype Upload = Upload(key: Key, entry: StoredEntry, copied: nat, size: Option<nat>)

  datatype Reader = Reader(ino: Ino, pos: nat, open: bool)

  datatype State = State(
    limit: nat,
    clock: nat,
    names: map<Key, Ino>,
    files: map<Ino, File>,
    uploads: map<Ino, Upload>,
    readers: map<nat, Reader>)

  /** Which system call of `accept` fails, if any. */
  datatype AcceptFault = AcceptFault(list: bool, undeletable: set<Key>, rename: bool)

  /** `Chtimes` failing leaves no trace, reading the container failing leaves the new time. */
  datatype GetFault = NoFault | ChtimesFails | ContainerFails

  datatype Step =
    | Begin(ino: Ino, key: Key, entry: StoredEntry)
    | Copy(ino: Ino, n: nat)
    | Seal(ino: Ino, size: nat)
    | Abort(ino: Ino)
    | Accept(ino: Ino, order: seq<Key>, fault: AcceptFault)
    | Get(key: Key, id: nat, trouble: GetFault)
    | Delete(key: Key, fails: bool)
    | Read(id: nat, n: nat)
    | Close(id: nat)

  ghost function Empty(limit: nat): (s: State)
    requires limit < TWO_64
    ensures WellFormed(s)
  {
    State(limit, 0, map[], map[], map[], map[])
  }

  /** What holds between any two steps. */
  ghost predicate WellFormed(s: State) {
    && s.limit < TWO_64
    && (forall k :: k in s.names ==> NameOk(s, k))
    && (forall i :: i in s.files ==> s.files[i].modTime < s.clock && s.files[i].size < TWO_63)
    && (forall i :: i in s.uploads ==> UploadOk(s, i))
    && (forall r :: r in s.readers ==> ReaderOk(s, r))
  }

  ghost predicate NameOk(s: State, k: Key)
    requires k in s.names
  {
    s.names[k] in s.files && s.files[s.names[k]].key == k && s.names[k] !in s.uploads
  }

  ghost predicate UploadOk(s: State, i: Ino)
    requires i in s.uploads
  {
    var u := s.uploads[i];
    && u.copied <= |u.entry.blob|
    && (u.size.None? ==> i !in s.files)
    && (u.size.Some? ==> i in s.files && s.files[i].size == u.size.value
                         && s.files[i].key == u.key && s.files[i].entry == u.entry)
  }

  ghost predicate ReaderOk(s: State, r: nat)
    requires r in s.readers
  {
    s.readers[r].ino in s.files && s.readers[r].pos <= |s.files[s.readers[r].ino].entry.blob|
  }

  /** The directory listing that `evict` works on, in a given order of the names. */
  function Listing(s: State, order: seq<Key>): (es: seq<DirEntry>)
    requires forall k :: k in order ==> k in s.names && s.names[k] in s.files
    ensures |es| == |order|
    ensures forall i :: 0 <= i < |order| ==> es[i].name == order[i]
  {
    seq(|order|, i requires 0 <= i < |order| =>
      var f := s.files[s.names[order[i]]]; DirEntry(order[i], f.size, f.modTime))
  }

  ghost predicate Distinct(order: seq<Key>) {
    forall i, j :: 0 <= i < j < |order| ==> order[i] != order[j]
  }

  /** `order` is one of the ways to sort the directory by modification time. */
  ghost predicate ModTimeOrder(s: State, order: seq<Key>) {
    && Distinct(order)
    && (forall k :: k in order <==> k in s.names)
    && (forall k :: k in s.names ==> s.names[k] in s.files)
    && SortedByModTime(Listing(s, order))
  }

  /** The first `n` names of an order. */
  function First(order: seq<Key>, n: nat): set<Key>
    requires n <= |order|
  {
    set k | k in order[..n]
  }

  lemma FoundLater(order: seq<Key>, n: nat, k: Key) returns (i: nat)
    requires n <= |order| && k in order && k !in order[..n]
    ensures i < |order| - n && order[n + i] == k
  {
    assert order == order[..n] + order[n..];
    i :| 0 <= i < |order[n..]| && order[n..][i] == k;
  }

  ghost predicate Enabled(s: State, step: Step) {
    match step
    case Begin(ino, _, _) => ino !in s.files && ino !in s.uploads
    case Copy(ino, n) =>
      && ino in s.uploads && s.uploads[ino].size.None?
      && s.uploads[ino].copied + n <= |s.uploads[ino].entry.blob|
    case Seal(ino, size) =>  // io.Copy returns without an error only at EOF
      && ino in s.uploads && s.uploads[ino].size.None?
      && s.uploads[ino].copied == |s.uploads[ino].entry.blob| <= size < TWO_63
    case Abort(ino) => ino in s.uploads
    case Accept(ino, order, _) =>
      && ino in s.uploads && s.uploads[ino].size.Some?
      && ModTimeOrder(s, order)
    case Get(_, id, _) => id !in s.readers
    case Delete(_, _) => true
    case Read(id, n) =>
      && id in s.readers && s.readers[id].open
      && s.readers[id].ino in s.files
      && s.readers[id].pos + n <= |s.files[s.readers[id].ino].entry.blob|
    case Close(id) => id in s.readers && s.readers[id].open
  }

  datatype AcceptResult = AcceptResult(removed: set<Key>, ok: bool)

  /** `accept`: stat, evict, rename, each of which may fail. */
  ghost function AcceptOutcome(s: State, ino: Ino, order: seq<Key>, fault: AcceptFault): AcceptResult
    requires ino in s.uploads && s.uploads[ino].size.Some? && ModTimeOrder(s, order)
  {
    if fault.list then AcceptResult({}, false)
    else
      var r := Evict(Listing(s, order), s.uploads[ino].size.value, s.limit, fault.undeletable);
      AcceptResult(First(order, r.removed), r.ok && !fault.rename)
  }

  ghost function Apply(s: State, step: Step): State
    requires WellFormed(s) && Enabled(s, step)
  {
    var now := s.clock;
    var t := s.(clock := now + 1);
    match step
    case Begin(ino, key, entry) => t.(uploads := s.uploads[ino := Upload(key, entry, 0, None)])
    case Copy(ino, n) =>
      t.(uploads := s.uploads[ino := s.uploads[ino].(copied := s.uploads[ino].copied + n)])
    case Seal(ino, size) =>
      var u := s.uploads[ino];
      t.(uploads := s.uploads[ino := u.(size := Some(size))],
         files := s.files[ino := File(now, size, u.key, u.entry)])
    case Abort(ino) => t.(uploads := s.uploads - {ino})
    case Accept(ino, order, fault) =>
      var r := AcceptOutcome(s, ino, order, fault);
      var names := s.names - r.removed;
      t.(uploads := s.uploads - {ino},
         names := if r.ok then names[s.uploads[ino].key := ino] else names)
    case Get(key, id, fault) =>
      if key !in s.names || fault.ChtimesFails? then t
      else
        var ino := s.names[key];
        var touched := t.(files := s.files[ino := s.files[ino].(modTime := now)]);
        if fault.ContainerFails? then touched
        else touched.(readers := s.readers[id := Reader(ino, 0, true)])
    case Delete(key, fails) => if fails then t else t.(names := s.names - {key})
    case Read(id, n) => t.(readers := s.readers[id := s.readers[id].(pos := s.readers[id].pos + n)])
    case Close(id) => t.(readers := s.readers[id := s.readers[id].(open := false)])
  }

  lemma NameIsOk(s: State, k: Key)
    requires WellFormed(s) && k in s.names
    ensures NameOk(s, k)
  {
  }

  lemma UploadIsOk(s: State, i: Ino)
    requires WellFormed(s) && i in s.uploads
    ensures UploadOk(s, i)
  {
  }

  lemma ReaderIsOk(s: State, r: nat)
    requires WellFormed(s) && r in s.readers
    ensures ReaderOk(s, r)
  {
  }

  /** A file is never rewritten once it is sealed: only its time can change. */
  lemma FilesStay(s: State, step: Step, i: Ino)
    requires WellFormed(s) && Enabled(s, step) && i in s.files
    ensures i in Apply(s, step).files && Apply(s, step).files[i] == s.files[i].(modTime := Apply(s, step).files[i].modTime)
  {
    hide WellFormed, ModTimeOrder, AcceptOutcome;
    if step.Get? {
      if step.key in s.names { NameIsOk(s, step.key); }
    } else if step.Seal? {
      UploadIsOk(s, step.ino);
    }
  }

  /** Only `accept` and `Delete` change the directory. */
  lemma NamesAfter(s: State, step: Step)
    requires WellFormed(s) && Enabled(s, step) && !step.Accept?
    ensures Apply(s, step).names == if step.Delete? && !step.fails then s.names - {step.key} else s.names
  {
    hide WellFormed, ModTimeOrder, AcceptOutcome;
  }

  lemma ApplyKeepsNames(s: State, step: Step, k: Key)
    requires WellFormed(s) && Enabled(s, step) && k in Apply(s, step).names
    ensures NameOk(Apply(s, step), k)
  {
    hide WellFormed, ModTimeOrder, AcceptOutcome;
    if step.Accept? {
      AcceptKeepsNames(s, step, k);
    } else {
      NamesAfter(s, step);
      NameIsOk(s, k);
      FilesStay(s, step, s.names[k]);
    }
  }

  lemma AcceptKeepsNames(s: State, step: Step, k: Key)
    requires WellFormed(s) && Enabled(s, step) && step.Accept? && k in Apply(s, step).names
    ensures NameOk(Apply(s, step), k)
  {
    hide WellFormed, ModTimeOrder, AcceptOutcome;
    if k in s.names { NameIsOk(s, k); }
    UploadIsOk(s, step.ino);
  }

  lemma GetKeepsUploads(s: State, step: Step, i: Ino)
    requires WellFormed(s) && Enabled(s, step) && step.Get? && i in s.uploads
    ensures i in Apply(s, step).uploads && UploadOk(Apply(s, step), i)
  {
    hide WellFormed, ModTimeOrder, AcceptOutcome;
    UploadIsOk(s, i);
    if step.key in s.names {
      NameIsOk(s, step.key);
    }
  }

  lemma SealKeepsUploads(s: State, step: Step, i: Ino)
    requires WellFormed(s) && Enabled(s, step) && step.Seal? && i in Apply(s, step).uploads
    ensures UploadOk(Apply(s, step), i)
  {
    hide WellFormed, ModTimeOrder, AcceptOutcome;
    UploadIsOk(s, i);
  }

  lemma ApplyKeepsUploads(s: State, step: Step, i: Ino)
    requires WellFormed(s) && Enabled(s, step) && i in Apply(s, step).uploads
    ensures UploadOk(Apply(s, step), i)
  {
    hide WellFormed, ModTimeOrder, AcceptOutcome;
    if step.Get? {
      GetKeepsUploads(s, step, i);
    } else if step.Seal? {
      SealKeepsUploads(s, step, i);
    } else {
      if i in s.uploads { UploadIsOk(s, i); }
    }
  }

  lemma ApplyKeepsReaders(s: State, step: Step, r: nat)
    requires WellFormed(s) && Enabled(s, step) && r in Apply(s, step).readers
    ensures ReaderOk(Apply(s, step), r)
  {
    hide WellFormed, ModTimeOrder, AcceptOutcome;
    if r in s.readers {
      ReaderIsOk(s, r);
      FilesStay(s, step, s.readers[r].ino);
    }
    if step.Get? && step.key in s.names {
      NameIsOk(s, step.key);
    }
  }

  lemma ApplyKeepsWellFormed(s: State, step: Step)
    requires WellFormed(s) && Enabled(s, step)
    ensures WellFormed(Apply(s, step))
  {
    var s' := Apply(s, step);
    forall k | k in s'.names ensures NameOk(s', k) { ApplyKeepsNames(s, step, k); }
    forall i | i in s'.uploads ensures UploadOk(s', i) { ApplyKeepsUploads(s, step, i); }
    forall r | r in s'.readers ensures ReaderOk(s', r) { ApplyKeepsReaders(s, step, r); }
  }
}
