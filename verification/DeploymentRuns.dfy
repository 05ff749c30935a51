/** Every run of the deployment is a run of `ProxyModel`: open readers stand for the entries that were found, the
    names of a directory for what its lossy map shows, and a Put happens at the rename. */
module DeploymentRuns {
  import opened CacheTypes
  import opened Rendezvous
  import opened Deployment
  import DiskRuns
  import LossyMap
  import P = ProxyModel
  import D = DiskModel

  /** The blob behind a reader. */
  ghost function BlobOf(d: D.State, r: nat): Blob {
    if r in d.readers && d.readers[r].ino in d.files then d.files[d.readers[r].ino].entry.blob else []
  }

  ghost function Found(d: D.State, f: Option<Handle>): Option<Entry> {
    if f.Some? then Some(Entry(f.value.meta, BlobOf(d, f.value.reader))) else None
  }

  ghost function ExchangeOf(d: D.State, y: Round): P.Exchange {
    P.Exchange(Found(d, y.found), y.ifNoneMatch, y.resp, y.current)
  }

  ghost function PhaseOf(d: D.State, t: Stage): P.Phase {
    match t
    case Waiting => P.Waiting
    case Locked => P.Locked
    case Calling => P.Calling
    case Asking(found) => P.Asking(Found(d, found))
    case Deciding(y) => P.Deciding(ExchangeOf(d, y))
    case Refreshing(y, at, sent, read, tee, _) => P.Refreshing(ExchangeOf(d, y), at, sent, read, tee)
    case Serving(y, sent) => P.Serving(ExchangeOf(d, y), sent)
    case Failed => P.Failed
    case Abandoned(y, sent, _) => P.Abandoned(ExchangeOf(d, y), sent)
    case Stored(y, sent) => P.Stored(ExchangeOf(d, y), sent)
    case StoreFailed(y, sent) => P.StoreFailed(ExchangeOf(d, y), sent)
    case Hit(y, sent, broken) => P.Hit(ExchangeOf(d, y), sent, broken)
    case CutOff(y, sent) => P.CutOff(ExchangeOf(d, y), sent)
    case Redirected(y) => P.Redirected(ExchangeOf(d, y))
    case PassedThrough(y) => P.PassedThrough(ExchangeOf(d, y))
  }

  ghost function HandlerOf(disks: map<Node, D.State>, w: Worker): P.Handler
    requires w.owner in disks
  {
    P.Handler(w.node, w.key, w.req, w.owner, PhaseOf(disks[w.owner], w.stage))
  }

  ghost predicate Housed(s: State) {
    DisksOk(s) && forall id :: id in s.workers ==> s.workers[id].owner in s.disks
  }

  /** The deployment as `ProxyModel` sees it. */
  ghost function Abs(s: State): P.State
    requires Housed(s)
  {
    P.State(map n | n in s.disks :: DiskRuns.Visible(s.disks[n]),
            map id | id in s.workers :: HandlerOf(s.disks, s.workers[id]),
            s.locks, s.origin, s.puts, s.calls)
  }

  function HandleIn(t: Stage): Option<Handle> {
    match t
    case Asking(found) => found
    case Deciding(y) => y.found
    case Refreshing(y, _, _, _, _, _) => y.found
    case Serving(y, _) => y.found
    case Abandoned(y, _, _) => y.found
    case Stored(y, _) => y.found
    case StoreFailed(y, _) => y.found
    case Hit(y, _, _) => y.found
    case CutOff(y, _) => y.found
    case Redirected(y) => y.found
    case PassedThrough(y) => y.found
    case _ => None
  }

  function UploadIn(t: Stage): Option<D.Ino> {
    if Putting(t) then t.upload else None
  }

  ghost predicate FoundOk(d: D.State, f: Option<Handle>) {
    f.Some? ==>
      && f.value.reader in d.readers && d.readers[f.value.reader].ino in d.files
      && f.value.meta == d.files[d.readers[f.value.reader].ino].entry.meta
  }

  /** A reader is where its handler has got to. */
  ghost predicate ReaderAt(d: D.State, t: Stage) {
    HandleIn(t).Some? && HandleIn(t).value.reader in d.readers ==>
      var r := d.readers[HandleIn(t).value.reader];
      && (t.Asking? || t.Deciding? ==> r.open && r.pos == 0)
      && (t.Serving? ==> r.open && r.pos == |t.sent|)
  }

  /** A temporary file is the handler's, and holds what the response will have brought. */
  ghost predicate UploadOk(d: D.State, w: Worker) {
    UploadIn(w.stage).Some? ==>
      && w.stage.upload.value in d.uploads
      && d.uploads[w.stage.upload.value].key == w.key
      && d.uploads[w.stage.upload.value].entry == P.Kept(w.stage.y.resp.etag, w.stage.y.resp.body)
  }

  ghost predicate StageOk(d: D.State, w: Worker) {
    FoundOk(d, HandleIn(w.stage)) && ReaderAt(d, w.stage) && UploadOk(d, w) && (w.stage.Serving? ==> w.stage.y.found.Some?)
  }

  /** No two handlers share a reader or a temporary file. */
  predicate Apart(w: Worker, w': Worker) {
    w.owner == w'.owner ==>
      && (HandleIn(w.stage).Some? && HandleIn(w'.stage).Some? ==>
            HandleIn(w.stage).value.reader != HandleIn(w'.stage).value.reader)
      && (UploadIn(w.stage).Some? ==> UploadIn(w.stage) != UploadIn(w'.stage))
  }

  ghost predicate WorkersOk(s: State) {
    forall id :: id in s.workers ==> s.workers[id].owner in s.disks && StageOk(s.disks[s.workers[id].owner], s.workers[id])
  }

  ghost predicate AllApart(s: State) {
    forall id, id' :: id in s.workers && id' in s.workers && id != id' ==> Apart(s.workers[id], s.workers[id'])
  }

  ghost predicate Inv(s: State) {
    DisksOk(s) && WorkersOk(s) && AllApart(s)
  }

  /** A step of a disk is none of a handler's business: it moves neither its reader nor its temporary file. */
  predicate Spares(dstep: D.Step, t: Stage) {
    && (HandleIn(t).Some? ==> !((dstep.Read? || dstep.Close?) && dstep.id == HandleIn(t).value.reader))
    && (UploadIn(t).Some? ==>
          !((dstep.Copy? || dstep.Seal? || dstep.Abort? || dstep.Accept?) && dstep.ino == UploadIn(t).value))
  }

  lemma ReaderSame(d: D.State, dstep: D.Step, r: nat)
    requires D.WellFormed(d) && D.Enabled(d, dstep) && r in d.readers
    requires !((dstep.Read? || dstep.Close?) && dstep.id == r)
    ensures r in D.Apply(d, dstep).readers && D.Apply(d, dstep).readers[r] == d.readers[r]
  {
    hide D.WellFormed, D.ModTimeOrder, D.AcceptOutcome;
  }

  lemma UploadSame(d: D.State, dstep: D.Step, i: D.Ino)
    requires D.WellFormed(d) && D.Enabled(d, dstep) && i in d.uploads
    requires !((dstep.Copy? || dstep.Seal? || dstep.Abort? || dstep.Accept?) && dstep.ino == i)
    ensures i in D.Apply(d, dstep).uploads && D.Apply(d, dstep).uploads[i] == d.uploads[i]
  {
    hide D.WellFormed, D.ModTimeOrder, D.AcceptOutcome;
  }

  /** Whatever happens on a disk, a reader keeps what it was opened on. */
  lemma FoundStays(d: D.State, dstep: D.Step, f: Option<Handle>)
    requires D.WellFormed(d) && D.Enabled(d, dstep) && FoundOk(d, f)
    ensures FoundOk(D.Apply(d, dstep), f) && Found(D.Apply(d, dstep), f) == Found(d, f)
  {
    hide D.WellFormed, D.Apply, D.Enabled;
    if f.Some? {
      DiskRuns.StepKeepsReader(d, dstep, f.value.reader);
    }
  }

  lemma SparedStays(d: D.State, dstep: D.Step, w: Worker)
    requires D.WellFormed(d) && D.Enabled(d, dstep) && StageOk(d, w) && Spares(dstep, w.stage)
    ensures StageOk(D.Apply(d, dstep), w) && PhaseOf(D.Apply(d, dstep), w.stage) == PhaseOf(d, w.stage)
  {
    hide D.WellFormed, D.Apply, D.Enabled, Found;
    FoundStays(d, dstep, HandleIn(w.stage));
    FoundStays(d, dstep, None);
    if HandleIn(w.stage).Some? {
      ReaderSame(d, dstep, HandleIn(w.stage).value.reader);
    }
    if UploadIn(w.stage).Some? {
      UploadSame(d, dstep, UploadIn(w.stage).value);
    }
  }

  /** One handler moves, one disk takes a step that spares all others. */
  ghost predicate Shifts(s: State, s': State, id: Id, dstep: D.Step)
    requires DisksOk(s)
  {
    && id in s.workers && id in s'.workers && s.workers[id].owner in s.disks
    && var n := s.workers[id].owner;
       && D.Enabled(s.disks[n], dstep)
       && s'.disks == s.disks[n := D.Apply(s.disks[n], dstep)]
       && s'.workers == s.workers[id := s'.workers[id]]
       && s'.workers[id] == s.workers[id].(stage := s'.workers[id].stage)
       && StageOk(s'.disks[n], s'.workers[id])
       && forall i :: i in s.workers && i != id ==>
            && Apart(s'.workers[id], s.workers[i]) && Apart(s.workers[i], s'.workers[id])
            && (s.workers[i].owner == n ==> Spares(dstep, s.workers[i].stage))
  }

  lemma OthersUnmoved(s: State, s': State, id: Id, dstep: D.Step, i: Id)
    requires Inv(s) && Shifts(s, s', id, dstep) && i in s.workers && i != id
    ensures i in s'.workers && s'.workers[i] == s.workers[i] && s.workers[i].owner in s'.disks
    ensures StageOk(s'.disks[s.workers[i].owner], s.workers[i])
    ensures HandlerOf(s'.disks, s.workers[i]) == HandlerOf(s.disks, s.workers[i])
  {
    hide D.WellFormed, D.Apply, D.Enabled, StageOk, PhaseOf, Spares, Apart;
    var n := s.workers[id].owner;
    assert StageOk(s.disks[s.workers[i].owner], s.workers[i]);
    if s.workers[i].owner == n {
      SparedStays(s.disks[n], dstep, s.workers[i]);
    }
  }

  lemma ShiftKeepsInv(s: State, s': State, id: Id, dstep: D.Step)
    requires Inv(s) && Shifts(s, s', id, dstep)
    ensures Inv(s') && Housed(s) && Housed(s')
  {
    hide D.WellFormed, D.Apply, D.Enabled, StageOk, Spares, Apart;
    D.ApplyKeepsWellFormed(s.disks[s.workers[id].owner], dstep);
    forall i | i in s'.workers
      ensures s'.workers[i].owner in s'.disks && StageOk(s'.disks[s'.workers[i].owner], s'.workers[i])
    {
      if i != id {
        OthersUnmoved(s, s', id, dstep, i);
      }
    }
  }

  ghost function HandlersOf(s: State): map<Id, P.Handler>
    requires Housed(s)
  {
    map id | id in s.workers :: HandlerOf(s.disks, s.workers[id])
  }

  ghost function ContentsOf(s: State): map<Node, LossyMap.Contents>
    requires DisksOk(s)
  {
    map n | n in s.disks :: DiskRuns.Visible(s.disks[n])
  }

  lemma AbsInParts(s: State)
    requires Housed(s)
    ensures Abs(s) == P.State(ContentsOf(s), HandlersOf(s), s.locks, s.origin, s.puts, s.calls)
  {
    hide DisksOk, HandlerOf, DiskRuns.Visible;
  }

  /** What `ProxyModel` sees of such a move. */
  lemma ShiftHandlers(s: State, s': State, id: Id, dstep: D.Step)
    requires Inv(s) && Shifts(s, s', id, dstep) && Housed(s) && Housed(s')
    ensures HandlersOf(s') == HandlersOf(s)[id := HandlerOf(s'.disks, s'.workers[id])]
  {
    hide D.WellFormed, D.Apply, D.Enabled, StageOk, Spares, Apart, HandlerOf, DiskRuns.Visible;
    forall i | i in s.workers && i != id ensures i in s'.workers && s'.workers[i] == s.workers[i]
      && s.workers[i].owner in s'.disks && HandlerOf(s'.disks, s.workers[i]) == HandlerOf(s.disks, s.workers[i])
    {
      OthersUnmoved(s, s', id, dstep, i);
    }
    hide Inv, Shifts;
    assert s'.workers.Keys == s.workers.Keys;
  }

  lemma ShiftContents(s: State, s': State, n: Node, d: D.State)
    requires DisksOk(s) && n in s.disks && s'.disks == s.disks[n := d] && D.WellFormed(d)
    ensures DisksOk(s') && ContentsOf(s') == ContentsOf(s)[n := DiskRuns.Visible(d)]
  {
    hide D.WellFormed, DiskRuns.Visible;
  }

  lemma SameContents(s: State, n: Node, m: LossyMap.Contents)
    requires DisksOk(s) && n in s.disks && m == DiskRuns.Visible(s.disks[n])
    ensures ContentsOf(s)[n := m] == ContentsOf(s)
  {
    hide D.WellFormed, DiskRuns.Visible;
  }

  /** A move of a handler and its owner's disk, in full. */
  lemma ShiftAbs(s: State, s': State, id: Id, dstep: D.Step)
    requires Inv(s) && Shifts(s, s', id, dstep)
    ensures Inv(s') && Housed(s) && Housed(s')
    ensures var n := s.workers[id].owner;
            && D.WellFormed(D.Apply(s.disks[n], dstep))
            && var shown := LossyMap.Apply(DiskRuns.Visible(s.disks[n]), DiskRuns.Meaning(s.disks[n], dstep));
               Abs(s') == P.State(ContentsOf(s)[n := shown],
                                  HandlersOf(s)[id := HandlerOf(s'.disks, s'.workers[id])],
                                  s'.locks, s'.origin, s'.puts, s'.calls)
  {
    hide D.WellFormed, D.Apply, D.Enabled, StageOk, Spares, Apart, HandlerOf, DiskRuns.Visible;
    hide DiskRuns.Meaning, Abs, HandlersOf, ContentsOf, LossyMap.Apply;
    var n := s.workers[id].owner;
    ShiftKeepsInv(s, s', id, dstep);
    DiskRuns.StepRefines(s.disks[n], dstep);
    ShiftHandlers(s, s', id, dstep);
    ShiftContents(s, s', n, D.Apply(s.disks[n], dstep));
    AbsInParts(s');
  }

  /** A move of a handler alone. */
  ghost predicate Moves(s: State, s': State, id: Id) {
    && id in s'.workers && s'.disks == s.disks && s'.workers == s.workers[id := s'.workers[id]]
    && s'.workers[id].owner in s.disks && StageOk(s.disks[s'.workers[id].owner], s'.workers[id])
    && forall i :: i in s.workers && i != id ==> Apart(s'.workers[id], s.workers[i]) && Apart(s.workers[i], s'.workers[id])
  }

  lemma MoveAbs(s: State, s': State, id: Id)
    requires Inv(s) && Moves(s, s', id)
    ensures Inv(s') && Housed(s) && Housed(s')
    ensures Abs(s') == P.State(Abs(s).disks, Abs(s).handlers[id := HandlerOf(s.disks, s'.workers[id])],
                               s'.locks, s'.origin, s'.puts, s'.calls)
  {
    hide D.WellFormed, StageOk, Apart, HandlerOf, DiskRuns.Visible;
  }

  /** A handler that keeps its owner, and neither gains nor changes a reader or a temporary file, stays apart. */
  lemma StaysApart(s: State, id: Id, w: Worker, i: Id)
    requires AllApart(s) && id in s.workers && i in s.workers && i != id && w.owner == s.workers[id].owner
    requires HandleIn(w.stage).None? || HandleIn(w.stage) == HandleIn(s.workers[id].stage)
    requires UploadIn(w.stage).None? || UploadIn(w.stage) == UploadIn(s.workers[id].stage)
    ensures Apart(w, s.workers[i]) && Apart(s.workers[i], w)
  {
    assert Apart(s.workers[id], s.workers[i]) && Apart(s.workers[i], s.workers[id]);
  }
}
