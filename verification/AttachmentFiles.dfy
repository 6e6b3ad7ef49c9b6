/** The read and write loops of src/server/attachment-objects.ts, where a read or a write may be short. */
module AttachmentFiles {
  import opened Results
  import opened AttachmentObjects

  const BUFFER_BYTES: nat := 64 * 1024

  datatype Refusal = Invalid | NoProgress

  /** A staged file that is only appended to. */
  class File {
    var content: Bytes

    constructor ()
      ensures content == []
    {
      content := [];
    }
  }

  function Concat(parts: seq<Bytes>): Bytes
    decreases |parts|
  {
    if parts == [] then [] else Concat(parts[..|parts| - 1]) + parts[|parts| - 1]
  }

  /** How many of the remaining bytes the n-th write takes. */
  function Taken(counts: nat -> nat, n: nat, remaining: nat): (count: nat)
    ensures count <= remaining
  {
    if counts(n) <= remaining then counts(n) else remaining
  }

  /** Writes are repeated until the whole buffer is taken; one that takes nothing ends the attempt. */
  method WriteAll(to: File, buffer: array<bv8>, bytes: nat, counts: nat -> nat, writes: nat) returns (ok: bool, n: nat)
    requires bytes <= buffer.Length
    modifies to
    ensures ok ==> to.content == old(to.content) + buffer[..bytes]
    ensures exists w: nat :: w <= bytes && to.content == old(to.content) + buffer[..w]
    ensures !ok ==> exists m: nat :: writes <= m < n && counts(m) == 0
  {
    var written := 0;
    n := writes;
    assert buffer[..0] == [];
    while written < bytes
      invariant 0 <= written <= bytes && n >= writes
      invariant to.content == old(to.content) + buffer[..written]
    {
      var count := Taken(counts, n, bytes - written);
      n := n + 1;
      if count == 0 {
        assert counts(n - 1) == 0;
        return false, n;
      }
      assert buffer[..written] + buffer[written..written + count] == buffer[..written + count];
      to.content := to.content + buffer[written..written + count];
      written := written + count;
    }
    return true, n;
  }

  method Read(buffer: array<bv8>, part: Bytes) returns (bytes: nat)
    requires |part| <= buffer.Length
    modifies buffer
    ensures bytes == |part| && buffer[..bytes] == part
  {
    bytes := 0;
    while bytes < |part|
      invariant 0 <= bytes <= |part| && buffer[..bytes] == part[..bytes]
    {
      buffer[bytes] := part[bytes];
      bytes := bytes + 1;
    }
  }

  /**
   * Reads until a read returns nothing: `reads` holds what they returned. The file is accepted exactly when its
   * recorded size and its bytes match; a copy then holds exactly those bytes, unless a write made no progress.
   */
  method Verify(hash: Hash, recorded: nat, chunks: seq<Bytes>, wanted: Object, copyTo: File?, counts: nat -> nat)
    returns (r: Result<(), Refusal>)
    requires forall i :: 0 <= i < |chunks| ==> 0 < |chunks[i]| <= BUFFER_BYTES
    modifies if copyTo == null then {} else {copyTo}
    ensures r.Ok? ==> recorded == wanted.size && Matches(hash, Concat(chunks), wanted)
    ensures r == Err(Invalid) ==> !(recorded == wanted.size && Matches(hash, Concat(chunks), wanted))
    ensures copyTo == null ==> r != Err(NoProgress)
    ensures r == Err(NoProgress) ==> exists n :: counts(n) == 0
    ensures copyTo != null && r.Ok? ==> copyTo.content == old(copyTo.content) + Concat(chunks)
  {
    if recorded != wanted.size { return Err(Invalid); }
    var hashed: Bytes, buffer := [], new bv8[BUFFER_BYTES];
    var position, writes, k := 0, 0, 0;
    assert chunks[..0] == [];
    while k < |chunks|
      invariant 0 <= k <= |chunks| && writes >= 0
      invariant hashed == Concat(chunks[..k]) && position == |hashed| <= wanted.size
      invariant copyTo != null ==> copyTo.content == old(copyTo.content) + hashed
    {
      var bytes := Read(buffer, chunks[k]);
      position := position + bytes;
      assert chunks[..k + 1][..k] == chunks[..k];
      if position > wanted.size {
        ConcatGrows(chunks, k + 1);
        return Err(Invalid);
      }
      hashed := hashed + buffer[..bytes];
      if copyTo != null {
        ghost var before := copyTo.content;
        var ok;
        ok, writes := WriteAll(copyTo, buffer, bytes, counts, writes);
        if !ok { return Err(NoProgress); }
        assert copyTo.content == before + chunks[k];
      }
      k := k + 1;
    }
    assert chunks[..k] == chunks;
    if position != wanted.size || hash(hashed) != wanted.digest { return Err(Invalid); }
    return Ok(());
  }

  lemma {:induction false} ConcatGrows(parts: seq<Bytes>, k: nat)
    requires k <= |parts|
    ensures |Concat(parts[..k])| <= |Concat(parts)|
    decreases |parts| - k
  {
    if k == |parts| {
      assert parts[..k] == parts;
    } else {
      assert parts[..k + 1][..k] == parts[..k];
      ConcatGrows(parts, k + 1);
    }
  }

  /** One way in which reads may return a file's bytes. */
  method Reads(content: Bytes) returns (chunks: seq<Bytes>)
    ensures Concat(chunks) == content
    ensures forall i :: 0 <= i < |chunks| ==> 0 < |chunks[i]| <= BUFFER_BYTES
  {
    chunks := [];
    var position := 0;
    while position < |content|
      invariant 0 <= position <= |content| && Concat(chunks) == content[..position]
      invariant forall i :: 0 <= i < |chunks| ==> 0 < |chunks[i]| <= BUFFER_BYTES
    {
      var end := if |content| - position > BUFFER_BYTES then position + BUFFER_BYTES else |content|;
      var chunk := content[position..end];
      assert (chunks + [chunk])[..|chunks|] == chunks;
      assert content[..position] + chunk == content[..end];
      chunks := chunks + [chunk];
      position := end;
    }
    assert content[..position] == content;
  }

  /** The object root. */
  class Store {
    var objects: map<Digest, Bytes>

    constructor (objects: map<Digest, Bytes>)
      ensures this.objects == objects
    {
      this.objects := objects;
    }
  }

  method VerifyBytes(hash: Hash, content: Bytes, wanted: Object) returns (ok: bool)
    ensures ok <==> Matches(hash, content, wanted)
  {
    var chunks := Reads(content);
    var r := Verify(hash, |content|, chunks, wanted, null, _ => 1);
    match r {
      case Ok(_) => ok := true;
      case Err(refusal) =>
        assert refusal == Invalid && r == Err(Invalid);
        ok := false;
    }
  }

  /**
   * publishAttachmentObject of bytes, undisturbed. It succeeds exactly for matching bytes over no object or a
   * matching one; whatever happens, no other object changes and none is replaced.
   */
  method PublishBytes(store: Store, hash: Hash, wanted: Object, source: array<bv8>, counts: nat -> nat)
    returns (r: Result<(), Refusal>)
    modifies store
    ensures forall d :: d in old(store.objects) ==> d in store.objects && store.objects[d] == old(store.objects)[d]
    ensures forall d :: d in store.objects && d !in old(store.objects) ==>
      d == wanted.digest && store.objects[d] == source[..]
    ensures r.Ok? ==> wanted.digest in store.objects && Matches(hash, store.objects[wanted.digest], wanted)
    ensures r == Err(Invalid) <==>
      || !Matches(hash, source[..], wanted)
      || (wanted.digest in old(store.objects) && !Matches(hash, old(store.objects)[wanted.digest], wanted))
    ensures r == Err(NoProgress) ==> store.objects == old(store.objects) && exists n :: counts(n) == 0
  {
    if source.Length != wanted.size || hash(source[..]) != wanted.digest { return Err(Invalid); }
    if wanted.digest in store.objects {
      var existing := VerifyBytes(hash, store.objects[wanted.digest], wanted);
      return if existing then Ok(()) else Err(Invalid);
    }
    var staged := new File();
    var ok, _ := WriteAll(staged, source, source.Length, counts, 0);
    if !ok { return Err(NoProgress); }
    assert source[..source.Length] == source[..] && staged.content == source[..];
    var verified := VerifyBytes(hash, staged.content, wanted);
    if !verified { return Err(Invalid); }
    if wanted.digest !in store.objects {
      store.objects := store.objects[wanted.digest := staged.content];
    }
    var published := VerifyBytes(hash, store.objects[wanted.digest], wanted);
    return if published then Ok(()) else Err(Invalid);
  }
}
