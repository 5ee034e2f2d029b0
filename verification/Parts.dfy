/** Hashing a local file, cutting it into upload parts, and reading the parts back later. */
module Parts {
  import opened Common

  const PART_SIZE: nat := 8_388_608

  const ATTACHMENT_MAX_BYTES: nat := 100 * 1024 * 1024

  function TotalParts(size: nat): nat {
    (size + PART_SIZE - 1) / PART_SIZE
  }

  function PartsOf(content: Bytes): seq<Bytes> {
    Split(content, PART_SIZE)
  }

  function Digests(parts: seq<Bytes>): (digests: seq<Digest<Bytes>>)
    ensures |digests| == |parts|
    ensures forall i :: 0 <= i < |parts| ==> digests[i] == Sha256(parts[i])
  {
    seq(|parts|, i requires 0 <= i < |parts| => Sha256(parts[i]))
  }

  /** Part i starts at offset i * PART_SIZE and is full, or what is left. */
  lemma {:induction false} PartAt(content: Bytes, i: nat)
    requires i < TotalParts(|content|)
    ensures |PartsOf(content)| == TotalParts(|content|)
    ensures i * PART_SIZE < |content|
    ensures PartsOf(content)[i]
         == content[i * PART_SIZE..if |content| - i * PART_SIZE < PART_SIZE then |content|
                                   else i * PART_SIZE + PART_SIZE]
    decreases |content|
  {
    if |content| > PART_SIZE {
      PartAt(content[PART_SIZE..], if i > 0 then i - 1 else 0);
    }
  }

  lemma CountParts(content: Bytes)
    ensures |PartsOf(content)| == TotalParts(|content|)
  {
    if content != [] {
      PartAt(content, 0);
    }
  }

  /** The parts are the file: put together they give it back, and a file of at most 100 MiB has 1 to 13. */
  lemma PartsReassemble(content: Bytes)
    ensures Flatten(PartsOf(content)) == content
    ensures forall p :: p in PartsOf(content) ==> 1 <= |p| <= PART_SIZE
    ensures 1 <= |content| <= ATTACHMENT_MAX_BYTES ==> 1 <= |PartsOf(content)| <= 13
  {
    SplitRestores(content, PART_SIZE);
    CountParts(content);
  }

  // ----- reading files that may be edited meanwhile -----

  datatype Stat = Stat(size: nat, mtime: int, regular: bool)

  datatype View = View(stat: Stat, content: Bytes)

  /** What is at one path at each moment; None when nothing can be opened there. */
  type History = nat -> Option<View>

  predicate SameStat(x: Option<View>, y: Option<View>) {
    x.Some? && y.Some? && x.value.stat == y.value.stat
  }

  /** Equal stat results at two moments mean that the file held still between them. */
  ghost predicate StatIsFaithful(history: History) {
    && (forall t :: history(t).Some? ==> history(t).value.stat.size == |history(t).value.content|)
    && (forall t, u, v :: t <= u <= v && SameStat(history(t), history(v)) ==> history(u) == history(t))
  }

  ghost predicate BoundedBy(history: History, limit: nat) {
    forall t :: history(t).Some? ==> |history(t).value.content| <= limit
  }

  datatype Hashed = Hashed(size: nat, sha256: Digest<Bytes>, partSha256s: seq<Digest<Bytes>>) | Unreadable

  function HashOf(content: Bytes): Hashed {
    Hashed(|content|, Sha256(content), Digests(PartsOf(content)))
  }

  predicate Acceptable(view: Option<View>) {
    view.Some? && view.value.stat.regular && 1 <= view.value.stat.size <= ATTACHMENT_MAX_BYTES
  }

  function Block(content: Bytes, offset: nat): Bytes {
    if offset >= |content| then []
    else if offset + PART_SIZE < |content| then content[offset..offset + PART_SIZE]
    else content[offset..]
  }

  /** The blocks read before an offset are the leading parts; an empty block comes when all are read. */
  lemma BlocksAreParts(content: Bytes, k: nat)
    requires k <= |PartsOf(content)|
    ensures Block(content, k * PART_SIZE) == if k < |PartsOf(content)| then PartsOf(content)[k] else []
  {
    CountParts(content);
    if k < |PartsOf(content)| {
      PartAt(content, k);
    }
  }

  /** The first k parts of the content have gone into the running digest and the list. */
  predicate HashedUpTo(content: Bytes, k: nat, digest: Bytes, partDigests: seq<Digest<Bytes>>) {
    && k <= |PartsOf(content)|
    && digest == Flatten(PartsOf(content)[..k])
    && partDigests == Digests(PartsOf(content))[..k]
  }

  lemma HashOneMore(content: Bytes, k: nat, digest: Bytes, partDigests: seq<Digest<Bytes>>)
    requires HashedUpTo(content, k, digest, partDigests)
    ensures var block := Block(content, k * PART_SIZE);
      if block == [] then Hashed(|content|, Sha256(digest), partDigests) == HashOf(content)
      else HashedUpTo(content, k + 1, digest + block, partDigests + [Sha256(block)])
  {
    BlocksAreParts(content, k);
    PartsReassemble(content);
    var parts, digests := PartsOf(content), Digests(PartsOf(content));
    if k == |parts| {
      assert parts[..k] == parts && digests[..k] == digests;
    } else {
      TakeMore(parts, k);
      TakeMore(digests, k);
      FlattenSnoc(parts[..k], parts[k]);
    }
  }

  lemma TakeMore<T>(s: seq<T>, k: nat)
    requires k < |s|
    ensures s[..k + 1] == s[..k] + [s[k]]
  {
  }

  /** From one moment to another the path showed the same view. */
  ghost predicate Still(history: History, start: nat, end: nat) {
    forall t :: start <= t <= end ==> history(t) == history(start)
  }

  /**
   * Hashes what is at the path. It returns the digests of one content, the one present at the first
   * stat, whatever was edited meanwhile; and it does return them when nothing was edited.
   */
  method HashRegularFile(history: History, start: nat, ghost limit: nat) returns (r: Hashed, end: nat)
    requires StatIsFaithful(history) && BoundedBy(history, limit)
    ensures start <= end
    ensures r.Hashed? ==> Acceptable(history(start)) && r == HashOf(history(start).value.content)
    ensures Acceptable(history(start)) && Still(history, start, end) ==> r.Hashed?
  {
    end := start;
    var before := history(start);
    if !Acceptable(before) {
      return Unreadable, end;
    }
    ghost var content := before.value.content;
    var digest: Bytes := [];
    var partDigests: seq<Digest<Bytes>> := [];
    var offset := 0;
    ghost var k := 0;
    while true
      invariant start <= end && offset == k * PART_SIZE
      invariant Still(history, start, end) ==> HashedUpTo(content, k, digest, partDigests)
      decreases limit - offset
    {
      end := end + 1;
      var now := history(end);
      if now.None? {
        return Unreadable, end;
      }
      var block := Block(now.value.content, offset);
      if Still(history, start, end) {
        HashOneMore(content, k, digest, partDigests);
      }
      if block == [] {
        break;
      }
      digest := digest + block;
      partDigests := partDigests + [Sha256(block)];
      offset := offset + PART_SIZE;
      k := k + 1;
    }
    end := end + 1;
    var after := history(end);
    if after.None? || after.value.stat != before.value.stat {
      return Unreadable, end;
    }
    assert SameStat(history(start), history(end));
    r := Hashed(before.value.stat.size, Sha256(digest), partDigests);
  }

  // ----- later reads -----

  datatype Read = Content(bytes: Bytes) | FileChanged

  predicate Matches(view: Option<View>, size: nat, sha256: Digest<Bytes>) {
    Acceptable(view) && |view.value.content| == size && Sha256(view.value.content) == sha256
  }

  method VerifyAttachment(history: History, start: nat, size: nat, sha256: Digest<Bytes>,
                          ghost limit: nat) returns (ok: bool, end: nat)
    requires StatIsFaithful(history) && BoundedBy(history, limit)
    ensures start <= end
    ensures ok ==> Matches(history(start), size, sha256)
    ensures Matches(history(start), size, sha256) && Still(history, start, end) ==> ok
  {
    var hashed: Hashed;
    hashed, end := HashRegularFile(history, start, limit);
    ok := hashed.Hashed? && hashed.size == size && hashed.sha256 == sha256;
  }

  /** Whether what was read may be sent as part n of a file of this size. */
  predicate AcceptedAsPart(content: Bytes, n: nat, size: nat, expected: Digest<Bytes>)
    requires 1 <= n <= TotalParts(size)
  {
    && |content| == (if PART_SIZE < size - (n - 1) * PART_SIZE then PART_SIZE else size - (n - 1) * PART_SIZE)
    && Sha256(content) == expected
  }

  function ReadPart(view: Option<View>, n: nat, size: nat, expected: Digest<Bytes>): Read
    requires 1 <= n <= TotalParts(size)
  {
    if view.None? then FileChanged
    else
      var content := Block(view.value.content, (n - 1) * PART_SIZE);
      if AcceptedAsPart(content, n, size, expected) then Content(content) else FileChanged
  }

  /** Whatever is in the file by now: what passes is the part that was hashed, and an unedited file passes. */
  lemma PartIsOriginal(original: Bytes, view: Option<View>, n: nat)
    requires 1 <= n <= TotalParts(|original|)
    ensures |Digests(PartsOf(original))| == TotalParts(|original|)
    ensures var read := ReadPart(view, n, |original|, Digests(PartsOf(original))[n - 1]);
      && (read.Content? ==> read.bytes == PartsOf(original)[n - 1])
      && (view.Some? && view.value.content == original ==> read.Content?)
  {
    CountParts(original);
    PartAt(original, n - 1);
    BlocksAreParts(original, n - 1);
  }

  /**
   * However many runs the reads were spread over and whatever was edited in between: parts that were
   * each accepted at their own moment concatenate to the bytes hashed at preparation.
   */
  lemma Reassembly(original: Bytes, views: seq<Option<View>>, parts: seq<Bytes>)
    requires |parts| == |views| == TotalParts(|original|)
    requires |Digests(PartsOf(original))| == TotalParts(|original|)
    requires forall i :: 0 <= i < |parts| ==>
               ReadPart(views[i], i + 1, |original|, Digests(PartsOf(original))[i]) == Content(parts[i])
    ensures Flatten(parts) == original
    ensures Sha256(Flatten(parts)) == Sha256(original) && |Flatten(parts)| == |original|
  {
    CountParts(original);
    forall i | 0 <= i < |parts| ensures parts[i] == PartsOf(original)[i] {
      PartIsOriginal(original, views[i], i + 1);
    }
    assert parts == PartsOf(original);
    PartsReassemble(original);
  }
}
