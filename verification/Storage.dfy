// Private object storage (storage.py): generated keys, ownership, the in-memory store.

module Storage {
  import opened Basics
  import opened Ids

  type Bytes = seq<bv8>

  function VendorPrefix(vendor: Uuid): string {
    "vendors/" + Text(vendor) + "/jobs/"
  }

  function ObjectKeyFor(vendor: Uuid, job: Uuid): string {
    VendorPrefix(vendor) + Text(job) + "/source.pdf"
  }

  // Two keys are equal only for the same vendor and the same job.
  lemma KeyInjective(v: Uuid, j: Uuid, v': Uuid, j': Uuid)
    requires ObjectKeyFor(v, j) == ObjectKeyFor(v', j')
    ensures v == v' && j == j'
  {
    var a, b := ObjectKeyFor(v, j), ObjectKeyFor(v', j');
    assert a[8..44] == Text(v) && b[8..44] == Text(v');
    assert a[50..86] == Text(j) && b[50..86] == Text(j');
    TextInjective(v, v');
    TextInjective(j, j');
  }

  // The prefix check accepts exactly the vendor the key was generated for.
  lemma PrefixExact(v: Uuid, j: Uuid, u: Uuid)
    ensures VendorPrefix(u) <= ObjectKeyFor(v, j) <==> u == v
  {
    if VendorPrefix(u) <= ObjectKeyFor(v, j) {
      var a, p := ObjectKeyFor(v, j), VendorPrefix(u);
      assert a[..50] == p;
      assert p[8..44] == Text(u);
      assert a[8..44] == a[..50][8..44] == Text(v);
      TextInjective(u, v);
    }
  }

  // ----- ownership from key and metadata -----

  function LowerDashChar(c: char): char {
    if 'A' <= c <= 'Z' then ((c as int) + 32) as char else if c == '_' then '-' else c
  }

  // `name.lower().replace("_", "-")`
  function LowerDash(name: string): string {
    seq(|name|, i requires 0 <= i < |name| => LowerDashChar(name[i]))
  }

  // The value the dict comprehension leaves under "vendor-id": the last one wins.
  function NormalizedVendor(metadata: seq<(string, string)>): Option<string> {
    if metadata == [] then None
    else
      var last := metadata[|metadata| - 1];
      if LowerDash(last.0) == "vendor-id" then Some(last.1) else NormalizedVendor(metadata[..|metadata| - 1])
  }

  predicate ObjectBelongsToVendor(key: string, metadata: seq<(string, string)>, vendor: Uuid) {
    && VendorPrefix(vendor) <= key
    && (var v := NormalizedVendor(metadata); v.None? || v.value == Text(vendor))
  }

  function PutMetadata(vendor: Uuid, job: Uuid, sha256: string): seq<(string, string)> {
    [("vendor_id", Text(vendor)), ("job_id", Text(job)), ("content_sha256", sha256)]
  }

  // An object stored by put_pdf belongs to the vendor who uploaded it and to no other.
  lemma OwnershipExact(v: Uuid, j: Uuid, sha256: string, u: Uuid)
    ensures ObjectBelongsToVendor(ObjectKeyFor(v, j), PutMetadata(v, j, sha256), u) <==> u == v
  {
    PrefixExact(v, j, u);
    UploaderNormalized(v, j, sha256);
  }

  lemma UploaderNormalized(v: Uuid, j: Uuid, sha256: string)
    ensures NormalizedVendor(PutMetadata(v, j, sha256)) == Some(Text(v))
  {
    var m := PutMetadata(v, j, sha256);
    assert LowerDash("vendor_id") == "vendor-id";
    assert LowerDash("content_sha256")[0] == 'c' && LowerDash("job_id")[0] == 'j';
    assert m[..2][..1] == [("vendor_id", Text(v))];
    assert NormalizedVendor(m) == NormalizedVendor(m[..2]) == NormalizedVendor(m[..1]);
  }

  // The spellings of "vendor-id": each letter in either case, the dash also as an underscore.
  predicate NamesVendor(name: string) {
    && |name| == 9
    && name[0] in {'v', 'V'} && name[1] in {'e', 'E'} && name[2] in {'n', 'N'} && name[3] in {'d', 'D'} && name[4] in {'o', 'O'}
    && name[5] in {'r', 'R'} && name[6] in {'-', '_'} && name[7] in {'i', 'I'} && name[8] in {'d', 'D'}
  }

  lemma Spelling(name: string)
    ensures LowerDash(name) == "vendor-id" <==> NamesVendor(name)
  {
    var low, id := LowerDash(name), "vendor-id";
    if |name| == 9 {
      assert low == [low[0], low[1], low[2], low[3], low[4], low[5], low[6], low[7], low[8]];
      assert id == ['v', 'e', 'n', 'd', 'o', 'r', '-', 'i', 'd'];
      forall c
        ensures LowerDashChar(c) == 'v' <==> c in {'v', 'V'}
        ensures LowerDashChar(c) == 'e' <==> c in {'e', 'E'}
        ensures LowerDashChar(c) == 'n' <==> c in {'n', 'N'}
        ensures LowerDashChar(c) == 'd' <==> c in {'d', 'D'}
        ensures LowerDashChar(c) == 'o' <==> c in {'o', 'O'}
        ensures LowerDashChar(c) == 'r' <==> c in {'r', 'R'}
        ensures LowerDashChar(c) == '-' <==> c in {'-', '_'}
        ensures LowerDashChar(c) == 'i' <==> c in {'i', 'I'}
      {
      }
    }
  }

  // Whatever the metadata: the last entry that names the vendor, in any spelling, must name it
  // right, whatever the key says.
  lemma {:induction false} LastEntryDecides(key: string, metadata: seq<(string, string)>, u: Uuid, i: nat)
    requires i < |metadata| && NamesVendor(metadata[i].0)
    requires forall k :: i < k < |metadata| ==> !NamesVendor(metadata[k].0)
    ensures ObjectBelongsToVendor(key, metadata, u) <==> "vendors/" + Text(u) + "/jobs/" <= key && metadata[i].1 == Text(u)
  {
    Spelling(metadata[|metadata| - 1].0);
    if i < |metadata| - 1 {
      LastEntryDecides(key, metadata[..|metadata| - 1], u, i);
    }
  }

  // Without such an entry the key decides alone.
  lemma {:induction false} KeyDecides(key: string, metadata: seq<(string, string)>, u: Uuid)
    requires forall k :: 0 <= k < |metadata| ==> !NamesVendor(metadata[k].0)
    ensures ObjectBelongsToVendor(key, metadata, u) <==> "vendors/" + Text(u) + "/jobs/" <= key
  {
    if metadata != [] {
      Spelling(metadata[|metadata| - 1].0);
      KeyDecides(key, metadata[..|metadata| - 1], u);
    }
  }

  // The three spellings in use, over a key that itself is right.
  lemma WrongVendorRefused(v: Uuid, j: Uuid, name: string, value: string)
    requires name == "vendor-id" || name == "vendor_id" || name == "Vendor-Id"
    ensures ObjectBelongsToVendor(ObjectKeyFor(v, j), [(name, value)], v) <==> value == Text(v)
  {
    assert NamesVendor(name);
    PrefixExact(v, j, v);
    LastEntryDecides(ObjectKeyFor(v, j), [(name, value)], v, 0);
  }

  class InMemoryObjectStorage {
    var objects: map<string, Bytes>
    var metadata: map<string, seq<(string, string)>>

    constructor ()
      ensures objects == map[] && metadata == map[]
    {
      objects, metadata := map[], map[];
    }

    method PutPdf(vendor: Uuid, job: Uuid, content: Bytes, sha256: string) returns (key: string)
      modifies this
      ensures key == ObjectKeyFor(vendor, job)
      ensures objects == old(objects)[key := content]
      ensures metadata == old(metadata)[key := [("vendor_id", Text(vendor)), ("job_id", Text(job)), ("content_sha256", sha256)]]
      ensures key == "vendors/" + Text(vendor) + "/jobs/" + Text(job) + "/source.pdf"
    {
      key := ObjectKeyFor(vendor, job);
      objects := objects[key := content];
      metadata := metadata[key := PutMetadata(vendor, job, sha256)];
    }

    method Delete(key: string)
      modifies this
      ensures objects == old(objects) - {key} && metadata == old(metadata) - {key}
    {
      objects, metadata := objects - {key}, metadata - {key};
    }

    // FileNotFoundError is None.
    method GetBytes(key: string) returns (content: Option<Bytes>)
      ensures content == if key in objects then Some(objects[key]) else None
    {
      content := if key in objects then Some(objects[key]) else None;
    }
  }
}
