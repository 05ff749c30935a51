/** The remote cache: the KV client (`internal/cache/kv`) against the KV handlers of the node that owns the
    key (`internal/server/handle_kv.go`), over a transport that delivers requests and responses whole. */
module KvProtocol {
  import opened CacheTypes
  import opened KvHeaders
  import Base64
  import opened DiskModel
  import opened DiskObject
  import opened Eviction
  import MetadataJson
  import DiskRuns
  import LossyMap

  /** The part of `Server` that answers other nodes; `cluster` is the secret, if there is a cluster. */
  class Server {
    const cluster: Option<Text>
    const disk: Disk

    constructor (cluster: Option<Text>, disk: Disk)
      ensures this.cluster == cluster && this.disk == disk
    {
      this.cluster, this.disk := cluster, disk;
    }

    /** `performClusterAuth`: the status of a refusal. */
    function PerformClusterAuth(request: Fields): (refusal: Option<nat>)
      ensures refusal.None? <==> cluster.Some? && BasicPassword(request) == cluster
      ensures refusal.Some? ==> refusal.value == if cluster.None? then 404 else 401
    {
      if cluster.None? then Some(404)
      else if BasicPassword(request) != Some(cluster.value) then Some(401)
      else None
    }

    /** `handleClusterGet`. A read error after the first bytes comes too late to change the status. */
    method HandleClusterGet(request: Fields, writer: Header, id: nat, trouble: GetFault, download: Download)
      returns (status: nat, body: Blob)
      requires disk.Valid() && id !in disk.readers
      modifies writer, disk
      ensures disk.Valid()
      ensures var refusal, key := PerformClusterAuth(request), GetKey(request);
              if refusal.Some? then
                status == refusal.value && disk.Model() == old(disk.Model())
              else if key.None? then
                status == 400 && disk.Model() == old(disk.Model())
              else
                && GetEffect(old(disk.Model()), disk.Model(), key.value, id, trouble)
                && (key.value !in old(disk.names) ==> status == 404)
                && (key.value in old(disk.names) && !trouble.NoFault? ==> status == 500)
                && (key.value in old(disk.names) && trouble.NoFault? ==>
                      var entry := DiskRuns.Visible(old(disk.Model()))[key.value];
                      && body == download.Yield(entry.blob) && status == download.Status(entry.blob)
                      && GetMetadata(writer.fields) == Some(entry.meta))
    {
      hide Apply, WellFormed, BasicPassword, GetKey, GetMetadata, DiskRuns.Opened;
      body := [];
      var refusal := PerformClusterAuth(request);
      if refusal.Some? {
        return refusal.value, [];
      }
      var key := GetKey(request);
      if key.None? {
        return 400, [];
      }
      var found, failed := disk.Get(key.value, id, trouble);
      OpensWhatItFinds(old(disk.Model()), key.value, id, trouble);
      if failed {
        return 500, [];
      }
      if found.None? {
        return 404, [];
      }
      SetMetadata(writer, found.value.meta);
      StoredMetadataSurvives(old(disk.Model()), key.value);
      var ok;
      body, ok := disk.CopyOut(id, download);
      status := if !ok && body == [] then 500 else 200;
    }

    /** `handleClusterPut`; `upload` is how the body arrives and what the disk does with it. */
    method HandleClusterPut(request: Fields, body: Blob, upload: Transfer) returns (status: nat, ghost lost: set<Key>)
      requires disk.Valid() && upload.Fits(disk, body)
      modifies disk
      ensures disk.Valid()
      ensures var refusal, key, meta := PerformClusterAuth(request), GetKey(request), GetMetadata(request);
              if refusal.Some? then
                status == refusal.value && disk.Model() == old(disk.Model())
              else if key.None? || meta.None? then
                status == 400 && disk.Model() == old(disk.Model())
              else
                && (status == 200 || status == 500)
                && PutEffect(old(disk.Model()), disk.Model(), key.value, Entry(meta.value, body), upload, status == 200,
                             lost)
    {
      hide Apply, WellFormed, BasicPassword, GetKey, GetMetadata;
      lost := {};
      var refusal := PerformClusterAuth(request);
      if refusal.Some? {
        return refusal.value, {};
      }
      var key := GetKey(request);
      if key.None? {
        return 400, {};
      }
      var meta := GetMetadata(request);
      if meta.None? {
        return 400, {};
      }
      var ok;
      ok, lost := disk.Put(upload.ino, key.value, Entry(meta.value, body), upload.buffer, upload.breaksAt,
                            upload.size, upload.fault);
      status := if ok then 200 else 500;
    }
  }

  /** How one `Disk.Put` goes: the temporary file, the read buffer, where the body breaks off, the size of
      the container and what fails on the disk. */
  datatype Transfer = Transfer(ino: Ino, buffer: nat, breaksAt: Option<nat>, size: nat, fault: AcceptFault) {
    ghost predicate Fits(disk: Disk, blob: Blob)
      reads disk
    {
      ino !in disk.files && ino !in disk.uploads && buffer > 0 && |blob| <= size < TWO_63
    }
  }

  /** `Disk.Get` and reading from what it returns: nothing but the time of the file changes. */
  ghost predicate GetEffect(s: State, s': State, key: Key, id: nat, trouble: GetFault)
    requires WellFormed(s) && id !in s.readers
  {
    && s' == Apply(s, Step.Get(key, id, trouble)).(clock := s'.clock, readers := s'.readers)
    && forall r :: r in s.readers ==> r in s'.readers && s'.readers[r] == s.readers[r]
  }

  /** The contract of `Disk.Put`. */
  ghost predicate PutEffect(s: State, s': State, key: Key, entry: Entry, upload: Transfer, ok: bool, lost: set<Key>)
    requires WellFormed(s) && WellFormed(s')
  {
    var broken := upload.breaksAt.Some? && upload.breaksAt.value < |entry.blob|;
    && DiskRuns.Visible(s') == LossyMap.Apply(DiskRuns.Visible(s),
         if ok then LossyMap.Put(key, AsStored(entry), lost) else LossyMap.Lose(lost))
    && (broken || upload.size > s.limit ==> !ok && lost == {})
    && (!broken && upload.size <= s.limit && upload.fault == AcceptFault(false, {}, false) ==> ok)
  }

  datatype GetResult = Found(entry: Entry) | NotFound | Error

  /** Whether the owner will serve the client at all. */
  predicate Reaches(secret: Text, cluster: Option<Text>, key: Key) {
    secret != [] && cluster == Some(secret) && key != []
  }

  /** The client, `kv.KV`. */
  class Client {
    const secret: Text

    constructor (secret: Text)
      ensures this.secret == secret
    {
      this.secret := secret;
    }

    method NewRequest(key: Key) returns (request: Header)
      ensures fresh(request)
      ensures GetKey(request.fields) == if key == [] then None else Some(key)
      ensures BasicPassword(request.fields) == if secret == [] then None else Some(secret)
      ensures request.fields.Keys == if secret == [] then {"X-Chacha-Key"} else {"Authorization", "X-Chacha-Key"}
      ensures secret != [] ==> request.fields["Authorization"] == BASIC + Base64.Encode([0x3A] + secret)
      ensures request.fields["X-Chacha-Key"] == Base64.Encode(key)
    {
      request := new Header();
      if secret != [] {
        request.Set(AUTHORIZATION, BasicAuth(secret));
      }
      SetKey(request, key);
      if secret != [] {
        PasswordRoundTrip(request.fields, secret);
      }
    }

    /** `KV.Get` composed with `handleClusterGet`: exactly a `Get` on the owner's disk, if the owner serves
        the client, and nothing otherwise. A read error on the owner's disk is an error here exactly if it hits
        the first buffer; later ones are lost on the way, and what was read so far arrives as if it were all. */
    method Get(owner: Server, key: Key, id: nat, trouble: GetFault, download: Download) returns (r: GetResult)
      requires owner.disk.Valid() && id !in owner.disk.readers
      modifies owner.disk
      ensures owner.disk.Valid()
      ensures !Reaches(secret, owner.cluster, key) ==>
                owner.disk.Model() == old(owner.disk.Model()) && r == (if owner.cluster.None? then NotFound else Error)
      ensures Reaches(secret, owner.cluster, key) ==>
                && GetEffect(old(owner.disk.Model()), owner.disk.Model(), key, id, trouble)
                && (key !in old(owner.disk.names) ==> r == NotFound)
                && (key in old(owner.disk.names) && !trouble.NoFault? ==> r == Error)
                && (key in old(owner.disk.names) && trouble.NoFault? ==>
                      var entry := DiskRuns.Visible(old(owner.disk.Model()))[key];
                      r == if download.Status(entry.blob) == 500 then Error
                           else Found(Entry(entry.meta, download.Yield(entry.blob))))
    {
      hide Apply, WellFormed, GetEffect;
      var request := NewRequest(key);
      var response := new Header();
      var status, body := owner.HandleClusterGet(request.fields, response, id, trouble, download);
      if status == 404 {
        return NotFound;
      }
      if status != 200 {
        return Error;
      }
      var meta := GetMetadata(response.fields);
      return Found(Entry(meta.value, body));
    }

    /** `KV.Put` composed with `handleClusterPut`: exactly a `Put` on the owner's disk. An ETag that is not
        valid UTF-8 is altered by the header's JSON just as it would be by the disk's. */
    method Put(owner: Server, key: Key, meta: Metadata, blob: Blob, upload: Transfer)
      returns (ok: bool, ghost lost: set<Key>)
      requires owner.disk.Valid() && upload.Fits(owner.disk, blob)
      modifies owner.disk
      ensures owner.disk.Valid()
      ensures !Reaches(secret, owner.cluster, key) ==> !ok && owner.disk.Model() == old(owner.disk.Model())
      ensures Reaches(secret, owner.cluster, key) ==>
                PutEffect(old(owner.disk.Model()), owner.disk.Model(), key, Entry(meta, blob), upload, ok, lost)
    {
      var request := NewRequest(key);
      label prepared:
      SetMetadata(request, meta);
      OtherFieldsStay(old@prepared(request.fields), request.fields[HEADER_METADATA]);
      var status;
      status, lost := owner.HandleClusterPut(request.fields, blob, upload);
      MetadataJson.CoercedTwice(meta);
      ok := status == 200;
    }
  }

  lemma OpensWhatItFinds(s: State, key: Key, id: nat, trouble: GetFault)
    requires WellFormed(s) && id !in s.readers && WellFormed(Apply(s, Step.Get(key, id, trouble)))
    ensures var s' := Apply(s, Step.Get(key, id, trouble));
            && (forall r :: r in s.readers ==> r in s'.readers && s'.readers[r] == s.readers[r])
            && (id in s'.readers ==> s'.readers[id].open && s'.readers[id].pos == 0
                                     && key in s.names && DiskRuns.Opened(s', id) == DiskRuns.Visible(s)[key])
  {
    if key in s.names {
      assert NameOk(s, key);
    }
  }

  /** The metadata of a stored entry passes through its header unchanged. */
  lemma StoredMetadataSurvives(s: State, key: Key)
    requires WellFormed(s) && key in s.names
    ensures var meta := DiskRuns.Visible(s)[key].meta; MetadataJson.Coerced(meta) == meta
  {
    assert NameOk(s, key);
    MetadataJson.CoerceLengthens(s.files[s.names[key]].entry.meta.etag);
  }
}
