/** The OBJ-subset loader of the `Model` class (common/model.cpp).

    The loader reads a record stream: `v`, `vt` and `vn` records are collected
    into three temporary lists; every `f a/b/c d/e/f g/h/i` record is expanded
    into three triangle corners, each corner appending one entry to each of the
    three parallel output lists (positions, texture coordinates, normals).

    The stream is given already tokenised, one `Record` per header token.
    `Load` is the reference meaning of a stream; the class `Model` holds the
    member fields and runs the loop that `Load` specifies. */
module ModelLoader {
  import opened Geometry

  /** `unsigned int`, the type the face indices are scanned into. */
  type u32 = x: int | 0 <= x < 0x1_0000_0000

  /** One corner of a face: 1-based position / texcoord / normal references. */
  datatype Corner = Corner(v: u32, t: u32, n: u32)

  /** One record of the stream, named by its header token. `BadF` is an `f`
      record whose corners did not yield all nine integers; `Other` is any
      other header, whose line is skipped. */
  datatype Record =
    | V(position: Vec3)
    | VT(uv: Vec2)
    | VN(normal: Vec3)
    | F(c0: Corner, c1: Corner, c2: Corner)
    | BadF
    | Other

  /** What `fopen` gives: nothing, or the records of the file. */
  datatype Source = Unopenable | Opened(records: seq<Record>)

  /** Why a load returned `false`. `at` is the index of the offending record. */
  datatype LoadError =
    | CannotOpen
    | UnsupportedFace(at: nat)
    | PositionOutOfRange(at: nat)

  /** `Loaded` is the source's `true`; every `Failed` is its `false`. */
  datatype Status = Loaded | Failed(error: LoadError)

  /** Three attribute lists, one entry per triangle corner. */
  datatype Mesh = Mesh(positions: seq<Vec3>, uvs: seq<Vec2>, normals: seq<Vec3>)
  {
    predicate Aligned()
    {
      |uvs| == |positions| && |normals| == |positions|
    }

    function Append(m: Mesh): Mesh
    {
      Mesh(positions + m.positions, uvs + m.uvs, normals + m.normals)
    }

    /** This mesh's lists are prefixes of those of `m`. */
    predicate PrefixOf(m: Mesh)
    {
      positions <= m.positions && uvs <= m.uvs && normals <= m.normals
    }
  }

  const EmptyMesh: Mesh := Mesh([], [], [])

  /** The status of a load and what it appended before it stopped. */
  datatype Outcome = Outcome(status: Status, mesh: Mesh)

  // ---------------------------------------------------------------------
  // The temporary lists: the `v`, `vt` and `vn` values among the first n records
  // ---------------------------------------------------------------------

  function Positions(rs: seq<Record>, n: nat): (ps: seq<Vec3>)
    requires n <= |rs|
    ensures |ps| <= n
  {
    if n == 0 then []
    else Positions(rs, n - 1) + (if rs[n - 1].V? then [rs[n - 1].position] else [])
  }

  function TexCoords(rs: seq<Record>, n: nat): (ts: seq<Vec2>)
    requires n <= |rs|
    ensures |ts| <= n
  {
    if n == 0 then []
    else TexCoords(rs, n - 1) + (if rs[n - 1].VT? then [rs[n - 1].uv] else [])
  }

  function Normals(rs: seq<Record>, n: nat): (ns: seq<Vec3>)
    requires n <= |rs|
    ensures |ns| <= n
  {
    if n == 0 then []
    else Normals(rs, n - 1) + (if rs[n - 1].VN? then [rs[n - 1].normal] else [])
  }

  // ---------------------------------------------------------------------
  // Face expansion
  // ---------------------------------------------------------------------

  function Corners(r: Record): seq<Corner>
    requires r.F?
  {
    [r.c0, r.c1, r.c2]
  }

  /** Every position reference of face `r` is a valid 1-based index into `tv`. */
  predicate Resolves(tv: seq<Vec3>, r: Record)
    requires r.F?
  {
    0 < r.c0.v <= |tv| && 0 < r.c1.v <= |tv| && 0 < r.c2.v <= |tv|
  }

  /** A texcoord reference in `[1, |tt|]` selects that entry; any other gives
      the zero vector. */
  function LookupUV(tt: seq<Vec2>, k: u32): Vec2
  {
    if 0 < k <= |tt| then tt[k - 1] else Zero2
  }

  /** The same rule for normals. */
  function LookupNormal(tn: seq<Vec3>, k: u32): Vec3
  {
    if 0 < k <= |tn| then tn[k - 1] else Zero3
  }

  /** The three corners a well-formed face contributes. */
  function ExpandFace(tv: seq<Vec3>, tt: seq<Vec2>, tn: seq<Vec3>, r: Record): Mesh
    requires r.F? && Resolves(tv, r)
  {
    Mesh([tv[r.c0.v - 1], tv[r.c1.v - 1], tv[r.c2.v - 1]],
         [LookupUV(tt, r.c0.t), LookupUV(tt, r.c1.t), LookupUV(tt, r.c2.t)],
         [LookupNormal(tn, r.c0.n), LookupNormal(tn, r.c1.n), LookupNormal(tn, r.c2.n)])
  }

  /** Record rs[n], read after the first n records, stops the load. */
  predicate Malformed(rs: seq<Record>, n: nat)
    requires n < |rs|
  {
    rs[n].BadF? || (rs[n].F? && !Resolves(Positions(rs, n), rs[n]))
  }

  function ErrorAt(rs: seq<Record>, n: nat): LoadError
    requires n < |rs|
  {
    if rs[n].BadF? then UnsupportedFace(n) else PositionOutOfRange(n)
  }

  /** The face record rs[n] expanded against the lists of the records before it. */
  function FaceAt(rs: seq<Record>, n: nat): Mesh
    requires n < |rs| && rs[n].F? && Resolves(Positions(rs, n), rs[n])
  {
    ExpandFace(Positions(rs, n), TexCoords(rs, n), Normals(rs, n), rs[n])
  }

  /** The outcome after reading the first n records of `rs`: the status and
      what was appended to the (initially empty) output lists. */
  function Read(rs: seq<Record>, n: nat): (o: Outcome)
    requires n <= |rs|
    ensures o.mesh.Aligned() && |o.mesh.positions| % 3 == 0
    ensures o.status == Loaded || o.status.error.UnsupportedFace? || o.status.error.PositionOutOfRange?
    ensures o.status.Failed? ==> o.status.error.at < n
  {
    if n == 0 then Outcome(Loaded, EmptyMesh)
    else
      var (o, k) := (Read(rs, n - 1), n - 1);
      if o.status.Failed? then o
      else if Malformed(rs, k) then Outcome(Failed(ErrorAt(rs, k)), o.mesh)
      else if rs[k].F? then Outcome(Loaded, o.mesh.Append(FaceAt(rs, k)))
      else o
  }

  /** The reference meaning of loading the whole stream. */
  function Load(rs: seq<Record>): Outcome
  {
    Read(rs, |rs|)
  }

  /** Number of face records among the first n records. */
  function FaceCount(rs: seq<Record>, n: nat): nat
    requires n <= |rs|
  {
    if n == 0 then 0
    else FaceCount(rs, n - 1) + (if rs[n - 1].F? then 1 else 0)
  }

  /** The length of the clean prefix the load appended from: the index of
      the offending record of a failed load (that record is scanned but
      appends nothing), or the whole stream. */
  function CleanPrefixLength(rs: seq<Record>): (n: nat)
    ensures n <= |rs|
  {
    var o := Load(rs);
    if o.status.Failed? then o.status.error.at else |rs|
  }

  // ---------------------------------------------------------------------
  // Lemmas about Read and Load
  // ---------------------------------------------------------------------

  /** Reading n records looks at those n records only: no record at or after
      position n, in particular no later `v`/`vt`/`vn` record, affects it. */
  lemma {:induction false} ReadsOnlyPrefix(rs: seq<Record>, other: seq<Record>, n: nat)
    requires n <= |rs| && n <= |other| && rs[..n] == other[..n]
    ensures Read(rs, n) == Read(other, n)
    ensures Positions(rs, n) == Positions(other, n)
    ensures TexCoords(rs, n) == TexCoords(other, n)
    ensures Normals(rs, n) == Normals(other, n)
  {
    if n > 0 {
      assert rs[n - 1] == rs[..n][n - 1] == other[..n][n - 1] == other[n - 1];
      assert rs[..n - 1] == rs[..n][..n - 1] == other[..n][..n - 1] == other[..n - 1];
      ReadsOnlyPrefix(rs, other, n - 1);
    }
  }

  /** Once a load has failed, further records change nothing: nothing
      appended earlier is rolled back, and nothing is appended later. */
  lemma {:induction false} FailureIsFinal(rs: seq<Record>, k: nat, n: nat)
    requires k <= n <= |rs| && Read(rs, k).status.Failed?
    ensures Read(rs, n) == Read(rs, k)
    decreases n - k
  {
    if k < n {
      FailureIsFinal(rs, k, n - 1);
    }
  }

  /** Reading more records never loses what fewer records appended. */
  lemma {:induction false} ReadExtends(rs: seq<Record>, k: nat, n: nat)
    requires k <= n <= |rs|
    ensures Read(rs, k).mesh.PrefixOf(Read(rs, n).mesh)
    decreases n - k
  {
    if k < n {
      ReadExtends(rs, k, n - 1);
    }
  }

  /** Entry i of what the first k records appended stays in place. */
  lemma ReadKeeps(rs: seq<Record>, k: nat, n: nat, i: nat)
    requires k <= n <= |rs| && i < |Read(rs, k).mesh.positions|
    ensures var (m, p) := (Read(rs, n).mesh, Read(rs, k).mesh);
            i < |m.positions| &&
            m.positions[i] == p.positions[i] &&
            m.uvs[i] == p.uvs[i] &&
            m.normals[i] == p.normals[i]
  {
    ReadExtends(rs, k, n);
  }

  /** A failed load stopped exactly at the offending record: everything
      before it loaded, the appended lists are those of that prefix, and the
      record is malformed. */
  lemma {:induction false} FailureStopsAt(rs: seq<Record>, n: nat)
    requires n <= |rs| && Read(rs, n).status.Failed?
    ensures var at := Read(rs, n).status.error.at;
            Read(rs, at).status == Loaded &&
            Malformed(rs, at) &&
            Read(rs, n).status.error == ErrorAt(rs, at) &&
            Read(rs, n) == Read(rs, at + 1) &&
            Read(rs, n).mesh == Read(rs, at).mesh
  {
    if Read(rs, n - 1).status.Failed? {
      FailureStopsAt(rs, n - 1);
    }
  }

  /** The load succeeds exactly when no record is malformed. */
  lemma {:induction false} ReadLoadedIff(rs: seq<Record>, n: nat)
    requires n <= |rs|
    ensures Read(rs, n).status == Loaded <==> forall k :: 0 <= k < n ==> !Malformed(rs, k)
  {
    if n > 0 {
      ReadLoadedIff(rs, n - 1);
    }
  }

  /** `loadObj` returns true exactly when the stream holds no malformed face. */
  lemma LoadedIff(rs: seq<Record>)
    ensures Load(rs).status == Loaded <==> forall k :: 0 <= k < |rs| ==> !Malformed(rs, k)
  {
    ReadLoadedIff(rs, |rs|);
  }

  /** Each face that loads appends exactly three corners. */
  lemma {:induction false} ReadCount(rs: seq<Record>, n: nat)
    requires n <= |rs| && Read(rs, n).status == Loaded
    ensures |Read(rs, n).mesh.positions| == 3 * FaceCount(rs, n)
  {
    if n > 0 {
      ReadCount(rs, n - 1);
    }
  }

  /** After a load, the lists hold three entries per face consumed; after a
      successful one, three per face of the stream. */
  lemma LoadCount(rs: seq<Record>)
    ensures |Load(rs).mesh.positions| == 3 * FaceCount(rs, CleanPrefixLength(rs))
    ensures Load(rs).status == Loaded ==> |Load(rs).mesh.positions| == 3 * FaceCount(rs, |rs|)
  {
    if Load(rs).status.Failed? {
      FailureStopsAt(rs, |rs|);
      ReadCount(rs, CleanPrefixLength(rs));
    } else {
      ReadCount(rs, |rs|);
    }
  }

  /** Entry `j` of `b`, appended after `a`, is entry |a| + j of the result. */
  lemma AppendedAt(a: Mesh, b: Mesh, j: nat)
    requires a.Aligned() && b.Aligned() && j < |b.positions|
    ensures var (ab, i) := (a.Append(b), |a.positions| + j);
            i < |ab.positions| &&
            ab.positions[i] == b.positions[j] &&
            ab.uvs[i] == b.uvs[j] &&
            ab.normals[i] == b.normals[j]
  {
  }

  /** Corner `j` of face record rs[k] as it stands right after that face:
      at index 3 * (faces before it) + j of the lists. */
  lemma FaceCornerRead(rs: seq<Record>, k: nat, j: nat)
    requires k < |rs| && rs[k].F? && j < 3
    requires Read(rs, k + 1).status == Loaded
    ensures var c := Corners(rs[k])[j];
            var (tv, tt, tn) := (Positions(rs, k), TexCoords(rs, k), Normals(rs, k));
            var m := Read(rs, k + 1).mesh;
            var i := 3 * FaceCount(rs, k) + j;
            0 < c.v <= |tv| &&
            i < |m.positions| &&
            m.positions[i] == tv[c.v - 1] &&
            m.uvs[i] == (if 0 < c.t <= |tt| then tt[c.t - 1] else Zero2) &&
            m.normals[i] == (if 0 < c.n <= |tn| then tn[c.n - 1] else Zero3)
  {
    var (tv, tt, tn) := (Positions(rs, k), TexCoords(rs, k), Normals(rs, k));
    var (base, face) := (Read(rs, k).mesh, FaceAt(rs, k));
    ReadCount(rs, k);
    ExpandFaceCorner(tv, tt, tn, rs[k], j);
    AppendedAt(base, face, j);
    assert Read(rs, k + 1).mesh == base.Append(face);
  }

  /** Corner `j` of face record rs[k], if that face was expanded, sits at
      index 3 * (faces before it) + j of every final output list. Its
      position is the 1-based reference into the `v` records before the
      face; its uv and normal are the referenced earlier `vt`/`vn` entry when
      the reference is in range and the zero vector otherwise. */
  lemma FaceCorners(rs: seq<Record>, k: nat, j: nat)
    requires k < |rs| && rs[k].F? && j < 3
    requires Read(rs, k + 1).status == Loaded
    ensures var c := Corners(rs[k])[j];
            var (tv, tt, tn) := (Positions(rs, k), TexCoords(rs, k), Normals(rs, k));
            var m := Load(rs).mesh;
            var i := 3 * FaceCount(rs, k) + j;
            0 < c.v <= |tv| &&
            i < |m.positions| &&
            m.positions[i] == tv[c.v - 1] &&
            m.uvs[i] == (if 0 < c.t <= |tt| then tt[c.t - 1] else Zero2) &&
            m.normals[i] == (if 0 < c.n <= |tn| then tn[c.n - 1] else Zero3)
  {
    FaceCornerRead(rs, k, j);
    ReadKeeps(rs, k + 1, |rs|, 3 * FaceCount(rs, k) + j);
  }

  /** Corner `j` of an expanded face. */
  lemma ExpandFaceCorner(tv: seq<Vec3>, tt: seq<Vec2>, tn: seq<Vec3>, r: Record, j: nat)
    requires r.F? && Resolves(tv, r) && j < 3
    ensures var (c, e) := (Corners(r)[j], ExpandFace(tv, tt, tn, r));
            e.Aligned() && |e.positions| == 3 &&
            e.positions[j] == tv[c.v - 1] &&
            e.uvs[j] == (if 0 < c.t <= |tt| then tt[c.t - 1] else Zero2) &&
            e.normals[j] == (if 0 < c.n <= |tn| then tn[c.n - 1] else Zero3)
  {
  }

  /** Records other than faces never touch the output lists, and records
      with an unknown header touch none of the six lists. */
  lemma NonFaceLeavesOutput(rs: seq<Record>, k: nat)
    requires k < |rs| && !rs[k].F? && !rs[k].BadF?
    ensures Read(rs, k + 1) == Read(rs, k)
    ensures rs[k].Other? ==>
              Positions(rs, k + 1) == Positions(rs, k) &&
              TexCoords(rs, k + 1) == TexCoords(rs, k) &&
              Normals(rs, k + 1) == Normals(rs, k)
  {
  }

  /** Without `vt` records among the first n, every uv read is zero. */
  lemma {:induction false} MissingTexCoordsAreZero(rs: seq<Record>, n: nat)
    requires n <= |rs| && TexCoords(rs, n) == []
    ensures forall i :: 0 <= i < |Read(rs, n).mesh.uvs| ==> Read(rs, n).mesh.uvs[i] == Zero2
  {
    if n > 0 {
      assert TexCoords(rs, n - 1) == [];
      MissingTexCoordsAreZero(rs, n - 1);
    }
  }

  /** Without `vn` records among the first n, every normal read is zero. */
  lemma {:induction false} MissingNormalsAreZero(rs: seq<Record>, n: nat)
    requires n <= |rs| && Normals(rs, n) == []
    ensures forall i :: 0 <= i < |Read(rs, n).mesh.normals| ==> Read(rs, n).mesh.normals[i] == Zero3
  {
    if n > 0 {
      assert Normals(rs, n - 1) == [];
      MissingNormalsAreZero(rs, n - 1);
    }
  }

  /** Appending aligned whole triangles keeps a mesh aligned and whole. */
  lemma WholeTriangles(a: Mesh, b: Mesh)
    requires b.Aligned() && |b.positions| % 3 == 0
    ensures a.Aligned() && |a.positions| % 3 == 0 ==>
              a.Append(b).Aligned() && |a.Append(b).positions| % 3 == 0
  {
    var x, y := |a.positions|, |b.positions|;
    if x % 3 == 0 {
      assert x + y == 3 * (x / 3 + y / 3);
    }
  }

  /** Reading a well-formed face record appends its expansion. */
  lemma FaceStep(rs: seq<Record>, i: nat, before: Mesh)
    requires i < |rs| && rs[i].F? && Read(rs, i).status == Loaded
    requires Resolves(Positions(rs, i), rs[i])
    ensures Read(rs, i + 1).status == Loaded
    ensures before.Append(Read(rs, i + 1).mesh) == before.Append(Read(rs, i).mesh).Append(FaceAt(rs, i))
  {
    AppendAfter(before, Read(rs, i).mesh, FaceAt(rs, i));
  }

  /** A malformed record, read after a clean prefix, decides the whole load. */
  lemma FaultStep(rs: seq<Record>, i: nat)
    requires i < |rs| && Read(rs, i).status == Loaded && Malformed(rs, i)
    ensures Load(rs) == Outcome(Failed(ErrorAt(rs, i)), Read(rs, i).mesh)
  {
    FailureIsFinal(rs, i + 1, |rs|);
  }

  /** Appending a face after what the first i records appended. */
  lemma AppendAfter(before: Mesh, done: Mesh, added: Mesh)
    ensures before.Append(done).Append(added) == before.Append(done.Append(added))
  {
    assert before.positions + done.positions + added.positions == before.positions + (done.positions + added.positions);
    assert before.uvs + done.uvs + added.uvs == before.uvs + (done.uvs + added.uvs);
    assert before.normals + done.normals + added.normals == before.normals + (done.normals + added.normals);
  }

  // ---------------------------------------------------------------------
  // The Model object
  // ---------------------------------------------------------------------

  /** A loaded mesh: the three attribute lists, whether its GPU buffers have
      been set up, and (as ghost state) the lists they were filled from. The
      GL calls themselves are not modelled. */
  class Model {
    var vertices: seq<Vec3>
    var uvs: seq<Vec2>
    var normals: seq<Vec3>
    var buffersReady: bool
    /** What the vertex, uv and normal buffers were filled from. */
    ghost var uploaded: Mesh

    /** The lists are index-aligned and hold whole triangles. */
    ghost predicate WellShaped()
      reads this
    {
      |uvs| == |vertices| && |normals| == |vertices| && |vertices| % 3 == 0
    }

    /** A constructed model: well shaped, with its buffers set up from its
        current lists. */
    ghost predicate Valid()
      reads this
    {
      WellShaped() && buffersReady && uploaded == Contents()
    }

    ghost function Contents(): Mesh
      reads this
    {
      Mesh(vertices, uvs, normals)
    }

    /** Loads, then sets up the buffers whether or not the load succeeded;
        the buffers hold the loaded lists. */
    constructor (file: Source)
      ensures Valid() && buffersReady && uploaded == Contents()
      ensures file.Unopenable? ==> Contents() == EmptyMesh
      ensures file.Opened? ==> Contents() == Load(file.records).mesh
    {
      vertices, uvs, normals := [], [], [];
      buffersReady := false;
      uploaded := EmptyMesh;
      new;
      var status := LoadObj(file);
      SetupBuffers();
    }

    /** `loadObj` with the member lists as its output arguments: it only
        appends to them. */
    method LoadObj(file: Source) returns (status: Status)
      modifies this`vertices, this`uvs, this`normals
      ensures buffersReady == old(buffersReady) && uploaded == old(uploaded)
      ensures file.Unopenable? ==> status == Failed(CannotOpen) && Contents() == old(Contents())
      ensures file.Opened? ==>
                status == Load(file.records).status &&
                Contents() == old(Contents()).Append(Load(file.records).mesh)
      ensures old(WellShaped()) ==> WellShaped()
    {
      if file.Unopenable? {
        return Failed(CannotOpen);
      }
      var rs := file.records;
      WholeTriangles(Contents(), Load(rs).mesh);
      var tempVertices: seq<Vec3> := [];
      var tempUVs: seq<Vec2> := [];
      var tempNormals: seq<Vec3> := [];
      var i := 0;
      while i < |rs|
        invariant 0 <= i <= |rs|
        invariant tempVertices == Positions(rs, i)
        invariant tempUVs == TexCoords(rs, i)
        invariant tempNormals == Normals(rs, i)
        invariant Read(rs, i).status == Loaded
        invariant Contents() == old(Contents()).Append(Read(rs, i).mesh)
        invariant buffersReady == old(buffersReady)
      {
        var r := rs[i];
        match r {
          case V(p) =>
            NonFaceLeavesOutput(rs, i);
            tempVertices := tempVertices + [p];
          case VT(t) =>
            NonFaceLeavesOutput(rs, i);
            tempUVs := tempUVs + [t];
          case VN(n) =>
            NonFaceLeavesOutput(rs, i);
            tempNormals := tempNormals + [n];
          case F(_, _, _) =>
            if !Resolves(tempVertices, r) {
              FaultStep(rs, i);
              return Failed(PositionOutOfRange(i));
            }
            FaceStep(rs, i, old(Contents()));
            AppendFace(tempVertices, tempUVs, tempNormals, r);
          case BadF =>
            FaultStep(rs, i);
            return Failed(UnsupportedFace(i));
          case Other =>
            NonFaceLeavesOutput(rs, i);
        }
        i := i + 1;
      }
      status := Loaded;
    }

    /** The inner loop over the three corners of one face. */
    method AppendFace(tv: seq<Vec3>, tt: seq<Vec2>, tn: seq<Vec3>, face: Record)
      requires face.F? && Resolves(tv, face)
      modifies this`vertices, this`uvs, this`normals
      ensures buffersReady == old(buffersReady) && uploaded == old(uploaded)
      ensures Contents() == old(Contents()).Append(ExpandFace(tv, tt, tn, face))
    {
      ghost var added := ExpandFace(tv, tt, tn, face);
      var corners := Corners(face);
      for i := 0 to 3
        invariant vertices == old(vertices) + added.positions[..i]
        invariant uvs == old(uvs) + added.uvs[..i]
        invariant normals == old(normals) + added.normals[..i]
        invariant buffersReady == old(buffersReady)
      {
        var c := corners[i];
        vertices := vertices + [tv[c.v - 1]];
        var uv := Zero2;
        if 0 < c.t <= |tt| {
          uv := tt[c.t - 1];
        }
        uvs := uvs + [uv];
        var normal := Zero3;
        if 0 < c.n <= |tn| {
          normal := tn[c.n - 1];
        }
        normals := normals + [normal];
      }
      assert added.positions[..3] == added.positions;
      assert added.uvs[..3] == added.uvs;
      assert added.normals[..3] == added.normals;
    }

    /** Sets up the buffers from the current lists; the lists are left as
        they are. */
    method SetupBuffers()
      modifies this`buffersReady, this`uploaded
      ensures buffersReady && uploaded == Contents()
    {
      buffersReady := true;
      uploaded := Contents();
    }

    /** The range `draw` hands to glDrawArrays: whole triangles only. */
    method Draw() returns (first: nat, count: nat)
      requires Valid()
      ensures first == 0 && count == |vertices| && count % 3 == 0
      ensures count == |uploaded.positions|
    {
      first, count := 0, |vertices|;
    }
  }
}
