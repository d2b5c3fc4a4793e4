/**
 * The face expansion of `Ball::Load`: a Wavefront OBJ file, already split
 * into directive records, is folded into three temporary pools (`v`, `vt`,
 * `vn`) and three output sequences. Every corner of every `f` record is
 * resolved at once into concrete values, with no deduplication.
 */
module ObjLoader {
  import opened Wrappers
  import opened Vectors

  /** The integers `%d` reads. */
  newtype int32 = x: int | -0x8000_0000 <= x < 0x8000_0000

  /** Number of values of an `unsigned int`. */
  const UINT_RANGE: int := 0x1_0000_0000

  /**
   * Pools smaller than this cannot be reached by a zero or negative index,
   * whose unsigned wrap-around lands at 0x7FFF_FFFF or above.
   */
  const MAX_POOL: int := 0x7FFF_FFFF

  /** One `vi/ti/ni` triple of a face. */
  datatype Corner = Corner(vertexIndex: int32, uvIndex: int32, normalIndex: int32)

  /** One directive of the file, as read by its header token. */
  datatype Directive =
    | V(vertex: Vec3)
    | VT(uv: Vec2)
    | VN(normal: Vec3)
    | F(c0: Corner, c1: Corner, c2: Corner)
    | BadF                            // an `f` line that did not yield nine integers
    | Mtllib(materialsFilename: string)
    | Other(header: string)           // any header the loader does not recognise

  datatype Pools = Pools(temp_vertices: seq<Vec3>, temp_uvs: seq<Vec2>, temp_normals: seq<Vec3>)

  /** The Ball's `vertices`, `uvs` and `normals` members. */
  datatype Mesh = Mesh(vertices: seq<Vec3>, uvs: seq<Vec2>, normals: seq<Vec3>)

  datatype Loader = Loader(pools: Pools, mesh: Mesh)

  /** `FaceFormat` is the "Failed to read face information" throw; `OutOfRange` is the throw of `.at`. */
  datatype ErrorKind = FaceFormat | OutOfRange

  /** A thrown error, with the output members as the throw left them. */
  datatype LoadError = LoadError(kind: ErrorKind, partial: Mesh)

  const EmptyMesh := Mesh([], [], [])

  const EmptyLoader := Loader(Pools([], [], []), EmptyMesh)

  // ---------------------------------------------------------------------
  // Index resolution
  // ---------------------------------------------------------------------

  /**
   * The position `.at` is asked for: the index is stored in an `unsigned int`
   * and one is subtracted in unsigned arithmetic.
   */
  function Slot(n: int32): (r: nat)
    ensures 1 <= n ==> r == n as int - 1
    ensures n < 1 ==> r >= MAX_POOL
  {
    (n as int - 1) % UINT_RANGE
  }

  /** `pool.at(n - 1)`: the element, or `None` where `.at` throws. */
  function At<T>(pool: seq<T>, n: int32): (r: Option<T>)
    ensures 1 <= n as int <= |pool| ==> r == Some(pool[n as int - 1])
    ensures n as int > |pool| ==> r == None
    ensures n < 1 && |pool| <= MAX_POOL ==> r == None
  {
    var k := Slot(n);
    if k < |pool| then Some(pool[k]) else None
  }

  /** All three indices of `c` are one-based positions of the pools. */
  predicate InRange(p: Pools, c: Corner) {
    && 1 <= c.vertexIndex as int <= |p.temp_vertices|
    && 1 <= c.uvIndex as int <= |p.temp_uvs|
    && 1 <= c.normalIndex as int <= |p.temp_normals|
  }

  predicate Small(p: Pools) {
    |p.temp_vertices| <= MAX_POOL && |p.temp_uvs| <= MAX_POOL && |p.temp_normals| <= MAX_POOL
  }

  function PositionOf(p: Pools, c: Corner): Vec3
    requires InRange(p, c)
  {
    p.temp_vertices[c.vertexIndex as int - 1]
  }

  function UvOf(p: Pools, c: Corner): Vec2
    requires InRange(p, c)
  {
    p.temp_uvs[c.uvIndex as int - 1]
  }

  function NormalOf(p: Pools, c: Corner): Vec3
    requires InRange(p, c)
  {
    p.temp_normals[c.normalIndex as int - 1]
  }

  /** `a` is `b` with some values appended to each output. */
  predicate Extends(a: Mesh, b: Mesh) {
    b.vertices <= a.vertices && b.uvs <= a.uvs && b.normals <= a.normals
  }

  /**
   * `out` is `m` with the values returned by `.at` for the first `dv`
   * vertex, `du` uv and `dn` normal indices of the corners `cs` appended,
   * in corner order.
   */
  predicate Pushed(p: Pools, cs: seq<Corner>, m: Mesh, out: Mesh, dv: nat, du: nat, dn: nat) {
    && dv <= |cs| && du <= |cs| && dn <= |cs|
    && Extends(out, m)
    && |out.vertices| == |m.vertices| + dv
    && |out.uvs| == |m.uvs| + du
    && |out.normals| == |m.normals| + dn
    && (forall j | 0 <= j < dv :: At(p.temp_vertices, cs[j].vertexIndex) == Some(out.vertices[|m.vertices| + j]))
    && (forall j | 0 <= j < du :: At(p.temp_uvs, cs[j].uvIndex) == Some(out.uvs[|m.uvs| + j]))
    && (forall j | 0 <= j < dn :: At(p.temp_normals, cs[j].normalIndex) == Some(out.normals[|m.normals| + j]))
  }

  /** The corner loop over `cs` ran to its end: every `.at` returned, and its value was pushed. */
  predicate Completed(p: Pools, cs: seq<Corner>, m: Mesh, out: Mesh) {
    Pushed(p, cs, m, out, |cs|, |cs|, |cs|)
  }

  /**
   * The corner loop over `cs` threw: the calls before the throw, in vertex,
   * uv, normal order corner after corner, returned and had their values
   * pushed, and the next call found its index out of range.
   */
  predicate Stopped(p: Pools, cs: seq<Corner>, m: Mesh, out: Mesh) {
    var dv, du, dn := |out.vertices| - |m.vertices|, |out.uvs| - |m.uvs|, |out.normals| - |m.normals|;
    && 0 <= dn <= du <= dv <= dn + 1
    && dn < |cs|
    && Pushed(p, cs, m, out, dv, du, dn)
    && (if dv == dn then At(p.temp_vertices, cs[dn].vertexIndex) == None
        else if du == dn then At(p.temp_uvs, cs[dn].uvIndex) == None
        else At(p.temp_normals, cs[dn].normalIndex) == None)
  }

  // ---------------------------------------------------------------------
  // The loader
  // ---------------------------------------------------------------------

  /** One iteration of the corner loop: three pushes, each preceded by its `.at`. */
  function ExpandCorner(p: Pools, m: Mesh, c: Corner): (r: Result<Mesh, LoadError>)
    ensures Small(p) ==> (r.Success? <==> InRange(p, c))
    ensures InRange(p, c) ==>
      r == Success(Mesh(m.vertices + [PositionOf(p, c)], m.uvs + [UvOf(p, c)], m.normals + [NormalOf(p, c)]))
    ensures r.Success? ==> Completed(p, [c], m, r.value)
    ensures r.Failure? ==> r.error.kind == OutOfRange && Stopped(p, [c], m, r.error.partial)
  {
    match At(p.temp_vertices, c.vertexIndex)
    case None => Failure(LoadError(OutOfRange, m))
    case Some(v) =>
      var m1 := m.(vertices := m.vertices + [v]);
      match At(p.temp_uvs, c.uvIndex)
      case None => Failure(LoadError(OutOfRange, m1))
      case Some(t) =>
        var m2 := m1.(uvs := m1.uvs + [t]);
        match At(p.temp_normals, c.normalIndex)
        case None => Failure(LoadError(OutOfRange, m2))
        case Some(n) => Success(m2.(normals := m2.normals + [n]))
  }

  /** A throw in the first corners is a throw of the whole loop: later corners are never reached. */
  lemma StoppedExtend(p: Pools, cs: seq<Corner>, ds: seq<Corner>, m: Mesh, out: Mesh)
    requires Stopped(p, cs, m, out)
    ensures Stopped(p, cs + ds, m, out)
  {
    var dn := |out.normals| - |m.normals|;
    assert (cs + ds)[dn] == cs[dn];
    forall j | 0 <= j < |cs|
      ensures (cs + ds)[j] == cs[j]
    {
    }
  }

  /** A completed corner followed by the loop over the rest is the loop over all of them. */
  lemma PushedAfter(p: Pools, c: Corner, cs: seq<Corner>, m: Mesh, m1: Mesh, out: Mesh, dv: nat, du: nat, dn: nat)
    requires Completed(p, [c], m, m1)
    requires Pushed(p, cs, m1, out, dv, du, dn)
    ensures Pushed(p, [c] + cs, m, out, dv + 1, du + 1, dn + 1)
  {
    var all := [c] + cs;
    forall j | 0 <= j < dv + 1
      ensures At(p.temp_vertices, all[j].vertexIndex) == Some(out.vertices[|m.vertices| + j])
    {
      if j == 0 {
        assert out.vertices[|m.vertices|] == m1.vertices[|m.vertices|];
      } else {
        assert all[j] == cs[j - 1];
      }
    }
    forall j | 0 <= j < du + 1
      ensures At(p.temp_uvs, all[j].uvIndex) == Some(out.uvs[|m.uvs| + j])
    {
      if j == 0 {
        assert out.uvs[|m.uvs|] == m1.uvs[|m.uvs|];
      } else {
        assert all[j] == cs[j - 1];
      }
    }
    forall j | 0 <= j < dn + 1
      ensures At(p.temp_normals, all[j].normalIndex) == Some(out.normals[|m.normals| + j])
    {
      if j == 0 {
        assert out.normals[|m.normals|] == m1.normals[|m.normals|];
      } else {
        assert all[j] == cs[j - 1];
      }
    }
  }

  /** A completed corner followed by a completed loop over the rest is a completed loop over all of them. */
  lemma CompletedAfter(p: Pools, c: Corner, cs: seq<Corner>, m: Mesh, m1: Mesh, out: Mesh)
    requires Completed(p, [c], m, m1) && Completed(p, cs, m1, out)
    ensures Completed(p, [c] + cs, m, out)
  {
    PushedAfter(p, c, cs, m, m1, out, |cs|, |cs|, |cs|);
  }

  /** A completed corner followed by a throw in the rest is a throw of the loop over all of them. */
  lemma StoppedAfter(p: Pools, c: Corner, cs: seq<Corner>, m: Mesh, m1: Mesh, out: Mesh)
    requires Completed(p, [c], m, m1) && Stopped(p, cs, m1, out)
    ensures Stopped(p, [c] + cs, m, out)
  {
    var dv, du, dn := |out.vertices| - |m1.vertices|, |out.uvs| - |m1.uvs|, |out.normals| - |m1.normals|;
    PushedAfter(p, c, cs, m, m1, out, dv, du, dn);
    assert ([c] + cs)[dn + 1] == cs[dn];
  }

  /** All corners of `c` and `cs` are in range exactly when those of `c`, then of `cs`, are. */
  lemma InRangeCons(p: Pools, c: Corner, cs: seq<Corner>)
    ensures (forall j | 0 <= j < |[c] + cs| :: InRange(p, ([c] + cs)[j]))
        <==> InRange(p, c) && (forall j | 0 <= j < |cs| :: InRange(p, cs[j]))
  {
    var all := [c] + cs;
    assert all[0] == c;
    forall j | 0 <= j < |cs|
      ensures all[j + 1] == cs[j]
    {
    }
  }

  /** The corner loop, stopped by the first `.at` that throws. */
  function ExpandCorners(p: Pools, m: Mesh, cs: seq<Corner>): (r: Result<Mesh, LoadError>)
    ensures Small(p) ==> (r.Success? <==> forall j | 0 <= j < |cs| :: InRange(p, cs[j]))
    ensures (forall j | 0 <= j < |cs| :: InRange(p, cs[j])) ==> r.Success?
    ensures r.Success? ==> Completed(p, cs, m, r.value)
    ensures r.Failure? ==> r.error.kind == OutOfRange && Stopped(p, cs, m, r.error.partial)
    decreases |cs|
  {
    if cs == [] then Success(m)
    else
      var c, rest := cs[0], cs[1..];
      assert cs == [c] + rest;
      InRangeCons(p, c, rest);
      match ExpandCorner(p, m, c)
      case Failure(e) =>
        StoppedExtend(p, [c], rest, m, e.partial);
        Failure(e)
      case Success(m1) =>
        var r := ExpandCorners(p, m1, rest);
        match r
        case Success(out) =>
          CompletedAfter(p, c, rest, m, m1, out);
          r
        case Failure(e) =>
          StoppedAfter(p, c, rest, m, m1, e.partial);
          r
  }

  /** A completed face whose indices are all in range appended exactly the corners' referenced values. */
  lemma CompletedFace(p: Pools, c0: Corner, c1: Corner, c2: Corner, m: Mesh, out: Mesh)
    requires InRange(p, c0) && InRange(p, c1) && InRange(p, c2)
    requires Completed(p, [c0, c1, c2], m, out)
    ensures out == Mesh(
        m.vertices + [PositionOf(p, c0), PositionOf(p, c1), PositionOf(p, c2)],
        m.uvs + [UvOf(p, c0), UvOf(p, c1), UvOf(p, c2)],
        m.normals + [NormalOf(p, c0), NormalOf(p, c1), NormalOf(p, c2)])
  {
    var cs := [c0, c1, c2];
    assert cs[0] == c0 && cs[1] == c1 && cs[2] == c2;
    AppendedThree(m.vertices, out.vertices, PositionOf(p, c0), PositionOf(p, c1), PositionOf(p, c2));
    AppendedThree(m.uvs, out.uvs, UvOf(p, c0), UvOf(p, c1), UvOf(p, c2));
    AppendedThree(m.normals, out.normals, NormalOf(p, c0), NormalOf(p, c1), NormalOf(p, c2));
  }

  /** `s` followed by three values is `out` when `out` starts with `s` and holds those values after it. */
  lemma AppendedThree<T>(s: seq<T>, out: seq<T>, a: T, b: T, c: T)
    requires s <= out && |out| == |s| + 3
    requires out[|s|] == a && out[|s| + 1] == b && out[|s| + 2] == c
    ensures out == s + [a, b, c]
  {
  }

  /** The `for (i = 0; i < 3; i++)` loop over the corners of one face. */
  function ExpandFace(p: Pools, m: Mesh, c0: Corner, c1: Corner, c2: Corner): (r: Result<Mesh, LoadError>)
    ensures Small(p) ==> (r.Success? <==> InRange(p, c0) && InRange(p, c1) && InRange(p, c2))
    ensures InRange(p, c0) && InRange(p, c1) && InRange(p, c2) ==>
      r == Success(Mesh(
        m.vertices + [PositionOf(p, c0), PositionOf(p, c1), PositionOf(p, c2)],
        m.uvs + [UvOf(p, c0), UvOf(p, c1), UvOf(p, c2)],
        m.normals + [NormalOf(p, c0), NormalOf(p, c1), NormalOf(p, c2)]))
    ensures r.Success? ==> Completed(p, [c0, c1, c2], m, r.value)
    ensures r.Failure? ==> r.error.kind == OutOfRange && Stopped(p, [c0, c1, c2], m, r.error.partial)
  {
    var cs := [c0, c1, c2];
    var r := ExpandCorners(p, m, cs);
    assert (forall j | 0 <= j < |cs| :: InRange(p, cs[j])) <==> InRange(p, c0) && InRange(p, c1) && InRange(p, c2) by {
      assert cs[0] == c0 && cs[1] == c1 && cs[2] == c2;
    }
    if r.Success? && InRange(p, c0) && InRange(p, c1) && InRange(p, c2) then
      CompletedFace(p, c0, c1, c2, m, r.value);
      r
    else r
  }

  /** One pass of the `while` loop of `Ball::Load`. */
  function Step(l: Loader, d: Directive): (r: Result<Loader, LoadError>)
    ensures !d.F? && !d.BadF? ==> r.Success? && r.value.mesh == l.mesh
    ensures d.Mtllib? || d.Other? ==> r == Success(l)
    ensures d.V? ==> r == Success(l.(pools := l.pools.(temp_vertices := l.pools.temp_vertices + [d.vertex])))
    ensures d.VT? ==> r == Success(l.(pools := l.pools.(temp_uvs := l.pools.temp_uvs + [d.uv])))
    ensures d.VN? ==> r == Success(l.(pools := l.pools.(temp_normals := l.pools.temp_normals + [d.normal])))
    ensures d.BadF? ==> r == Failure(LoadError(FaceFormat, l.mesh))
    ensures d.F? && r.Success? ==>
      && r.value.pools == l.pools
      && |r.value.mesh.vertices| == |l.mesh.vertices| + 3
      && |r.value.mesh.uvs| == |l.mesh.uvs| + 3
      && |r.value.mesh.normals| == |l.mesh.normals| + 3
      && Completed(l.pools, [d.c0, d.c1, d.c2], l.mesh, r.value.mesh)
    ensures d.F? && r.Failure? ==>
      r.error.kind == OutOfRange && Stopped(l.pools, [d.c0, d.c1, d.c2], l.mesh, r.error.partial)
  {
    match d
    case V(v) => Success(l.(pools := l.pools.(temp_vertices := l.pools.temp_vertices + [v])))
    case VT(t) => Success(l.(pools := l.pools.(temp_uvs := l.pools.temp_uvs + [t])))
    case VN(n) => Success(l.(pools := l.pools.(temp_normals := l.pools.temp_normals + [n])))
    case F(c0, c1, c2) =>
      var m :- ExpandFace(l.pools, l.mesh, c0, c1, c2);
      Success(l.(mesh := m))
    case BadF => Failure(LoadError(FaceFormat, l.mesh))
    case Mtllib(_) => Success(l)
    case Other(_) => Success(l)
  }

  /** Each pool of `a` is the same pool of `b` with values appended. */
  predicate PoolsGrew(a: Pools, b: Pools) {
    b.temp_vertices <= a.temp_vertices && b.temp_uvs <= a.temp_uvs && b.temp_normals <= a.temp_normals
  }

  /** `a` is `b` with the same number of entries, a multiple of three, appended to each output. */
  predicate GrewByFaces(a: Mesh, b: Mesh) {
    && Extends(a, b)
    && |a.vertices| - |b.vertices| == |a.uvs| - |b.uvs| == |a.normals| - |b.normals|
    && (|a.vertices| - |b.vertices|) % 3 == 0
  }

  /**
   * The `while` loop: a left fold of `Step` over the records, stopped by the
   * first throw. Pools and outputs only ever grow, and a completed loop has
   * added whole faces to the outputs.
   */
  function Run(l: Loader, ds: seq<Directive>): (r: Result<Loader, LoadError>)
    ensures r.Success? ==> PoolsGrew(r.value.pools, l.pools) && GrewByFaces(r.value.mesh, l.mesh)
    ensures r.Failure? ==> Extends(r.error.partial, l.mesh)
    decreases |ds|
  {
    if ds == [] then Success(l)
    else
      var l' :- Step(l, ds[0]);
      Run(l', ds[1..])
  }

  /** `Ball::Load` from a freshly constructed Ball: the three outputs come out equally long, three entries per face. */
  function Load(ds: seq<Directive>): (r: Result<Mesh, LoadError>)
    ensures r.Success? ==> |r.value.vertices| == |r.value.uvs| == |r.value.normals|
    ensures r.Success? ==> |r.value.vertices| % 3 == 0
  {
    var l :- Run(EmptyLoader, ds);
    Success(l.mesh)
  }

  // ---------------------------------------------------------------------
  // Reference definition: what the file says, record by record
  // ---------------------------------------------------------------------

  function Last(ds: seq<Directive>): Directive
    requires ds != []
  {
    ds[|ds| - 1]
  }

  function Init(ds: seq<Directive>): seq<Directive>
    requires ds != []
  {
    ds[..|ds| - 1]
  }

  /** The pools the records `ds` describe: the `v`, `vt` and `vn` payloads in file order. */
  function PoolsOf(ds: seq<Directive>): Pools
    decreases |ds|
  {
    if ds == [] then Pools([], [], [])
    else
      var p := PoolsOf(Init(ds));
      match Last(ds)
      case V(v) => p.(temp_vertices := p.temp_vertices + [v])
      case VT(t) => p.(temp_uvs := p.temp_uvs + [t])
      case VN(n) => p.(temp_normals := p.temp_normals + [n])
      case _ => p
  }

  function FaceCount(ds: seq<Directive>): nat
    decreases |ds|
  {
    if ds == [] then 0
    else FaceCount(Init(ds)) + (if Last(ds).F? then 1 else 0)
  }

  /** Record `d`, read after the records `before`, is a face whose indices refer to earlier data, or not a face at all. */
  predicate RecordOk(before: seq<Directive>, d: Directive) {
    && !d.BadF?
    && (d.F? ==> InRange(PoolsOf(before), d.c0) && InRange(PoolsOf(before), d.c1) && InRange(PoolsOf(before), d.c2))
  }

  /** No record of `ds` is a malformed face or refers forward or out of range. */
  predicate WellFormed(ds: seq<Directive>) {
    forall k | 0 <= k < |ds| :: RecordOk(ds[..k], ds[k])
  }

  /** No pool described by `ds` is large enough for an index to wrap onto it. */
  predicate Bounded(ds: seq<Directive>) {
    Small(PoolsOf(ds))
  }

  lemma WellFormedSnoc(ds: seq<Directive>)
    requires ds != []
    ensures WellFormed(ds) <==> WellFormed(Init(ds)) && RecordOk(Init(ds), Last(ds))
  {
    var pre := Init(ds);
    assert ds == pre + [Last(ds)];
    forall k | 0 <= k < |pre|
      ensures ds[..k] == pre[..k] && ds[k] == pre[k]
    {
    }
    assert ds[..|pre|] == pre;
  }

  /** The outputs a well-formed file describes: each face's corners resolved against the pools of the records before it. */
  function Expected(ds: seq<Directive>): Mesh
    requires WellFormed(ds)
    decreases |ds|
  {
    if ds == [] then EmptyMesh
    else
      WellFormedSnoc(ds);
      var m := Expected(Init(ds));
      var p := PoolsOf(Init(ds));
      match Last(ds)
      case F(c0, c1, c2) =>
        Mesh(
          m.vertices + [PositionOf(p, c0), PositionOf(p, c1), PositionOf(p, c2)],
          m.uvs + [UvOf(p, c0), UvOf(p, c1), UvOf(p, c2)],
          m.normals + [NormalOf(p, c0), NormalOf(p, c1), NormalOf(p, c2)])
      case _ => m
  }

  // ---------------------------------------------------------------------
  // Properties
  // ---------------------------------------------------------------------

  /** Folding one more record is one more `Step` after the fold of the rest. */
  lemma {:induction false} RunSnoc(l: Loader, ds: seq<Directive>, d: Directive)
    ensures Run(l, ds + [d]) == (match Run(l, ds) case Failure(e) => Failure(e) case Success(l') => Step(l', d))
    decreases |ds|
  {
    if ds == [] {
      assert [d][1..] == [];
    } else {
      assert (ds + [d])[0] == ds[0];
      assert (ds + [d])[1..] == ds[1..] + [d];
      match Step(l, ds[0])
      case Failure(e) =>
      case Success(l1) => RunSnoc(l1, ds[1..], d);
    }
  }

  /** A throw ends the load: the records after it are never read. */
  lemma {:induction false} RunStopsAtThrow(l: Loader, ds: seq<Directive>, k: nat)
    requires k <= |ds|
    requires Run(l, ds[..k]).Failure?
    ensures Run(l, ds) == Run(l, ds[..k])
    decreases |ds| - k
  {
    if k < |ds| {
      assert ds[..k + 1] == ds[..k] + [ds[k]];
      RunSnoc(l, ds[..k], ds[k]);
      RunStopsAtThrow(l, ds, k + 1);
    } else {
      assert ds[..k] == ds;
    }
  }

  /**
   * On a successful load the pools hold exactly the `v`, `vt` and `vn`
   * payloads in file order, and each output holds three values per face.
   */
  lemma {:induction false} RunShape(ds: seq<Directive>)
    ensures Run(EmptyLoader, ds).Success? ==>
      && Run(EmptyLoader, ds).value.pools == PoolsOf(ds)
      && |Run(EmptyLoader, ds).value.mesh.vertices| == 3 * FaceCount(ds)
      && |Run(EmptyLoader, ds).value.mesh.uvs| == 3 * FaceCount(ds)
      && |Run(EmptyLoader, ds).value.mesh.normals| == 3 * FaceCount(ds)
    decreases |ds|
  {
    if ds != [] {
      assert ds == Init(ds) + [Last(ds)];
      RunSnoc(EmptyLoader, Init(ds), Last(ds));
      RunShape(Init(ds));
    }
  }

  /** Face output length: all three outputs have three entries per `f` record. */
  lemma LoadLength(ds: seq<Directive>)
    ensures Load(ds).Success? ==>
      && |Load(ds).value.vertices| == 3 * FaceCount(ds)
      && |Load(ds).value.uvs| == 3 * FaceCount(ds)
      && |Load(ds).value.normals| == 3 * FaceCount(ds)
  {
    RunShape(ds);
  }

  /**
   * A well-formed file loads to the reference pools and outputs, whatever
   * the size of its pools.
   */
  lemma {:induction false} RunWellFormed(ds: seq<Directive>)
    requires WellFormed(ds)
    ensures Run(EmptyLoader, ds) == Success(Loader(PoolsOf(ds), Expected(ds)))
    decreases |ds|
  {
    if ds != [] {
      var pre, d := Init(ds), Last(ds);
      assert ds == pre + [d];
      WellFormedSnoc(ds);
      RunWellFormed(pre);
      RunSnoc(EmptyLoader, pre, d);
    }
  }

  /**
   * The fold agrees with the reference definition: it succeeds exactly on
   * well-formed input, and then yields the corners resolved one-based
   * against the records read so far, in file order.
   */
  lemma {:induction false} RunMatchesExpected(ds: seq<Directive>)
    requires Bounded(ds)
    ensures Run(EmptyLoader, ds).Success? <==> WellFormed(ds)
    ensures WellFormed(ds) ==>
      Run(EmptyLoader, ds) == Success(Loader(PoolsOf(ds), Expected(ds)))
    decreases |ds|
  {
    if ds == [] {
    } else {
      var pre, d := Init(ds), Last(ds);
      assert ds == pre + [d];
      assert Bounded(pre);
      RunSnoc(EmptyLoader, pre, d);
      RunMatchesExpected(pre);
      WellFormedSnoc(ds);
    }
  }

  /** Loading succeeds exactly on well-formed input (no malformed face, no index of 0, no forward or out-of-range index). */
  lemma LoadSucceedsIffWellFormed(ds: seq<Directive>)
    requires Bounded(ds)
    ensures Load(ds).Success? <==> WellFormed(ds)
    ensures WellFormed(ds) ==> Load(ds) == Success(Expected(ds))
  {
    RunMatchesExpected(ds);
  }

  /**
   * The first offending record decides the error: a malformed face raises
   * the face-format error with the outputs as the earlier records left them;
   * a bad index raises the `.at` error, with the outputs holding what the
   * earlier records produced followed by the values of the failing face's
   * `.at` calls that returned before the throw.
   */
  lemma FirstBadRecordThrows(ds: seq<Directive>, k: nat)
    requires k < |ds|
    requires Bounded(ds[..k])
    requires WellFormed(ds[..k]) && !RecordOk(ds[..k], ds[k])
    ensures Load(ds).Failure?
    ensures Load(ds).error.kind == (if ds[k].BadF? then FaceFormat else OutOfRange)
    ensures ds[k].BadF? ==> Load(ds).error.partial == Expected(ds[..k])
    ensures ds[k].F? ==>
      Stopped(PoolsOf(ds[..k]), [ds[k].c0, ds[k].c1, ds[k].c2], Expected(ds[..k]), Load(ds).error.partial)
  {
    var pre := ds[..k];
    RunMatchesExpected(pre);
    assert ds[..k + 1] == pre + [ds[k]];
    RunSnoc(EmptyLoader, pre, ds[k]);
    RunStopsAtThrow(EmptyLoader, ds, k + 1);
  }

  /** Some index of corner `c` lies past the end of its pool: it names data not read yet, or never. */
  predicate PastEnd(p: Pools, c: Corner) {
    || c.vertexIndex as int > |p.temp_vertices|
    || c.uvIndex as int > |p.temp_uvs|
    || c.normalIndex as int > |p.temp_normals|
  }

  /** A loop over `cs` that ran to its end found every index of every corner within its pool. */
  lemma CompletedWithinPools(p: Pools, cs: seq<Corner>, m: Mesh, out: Mesh)
    ensures Completed(p, cs, m, out) ==> forall j | 0 <= j < |cs| :: !PastEnd(p, cs[j])
  {
    if Completed(p, cs, m, out) {
      forall j | 0 <= j < |cs|
        ensures !PastEnd(p, cs[j])
      {
        assert At(p.temp_vertices, cs[j].vertexIndex).Some?;
        assert At(p.temp_uvs, cs[j].uvIndex).Some?;
        assert At(p.temp_normals, cs[j].normalIndex).Some?;
      }
    }
  }

  /**
   * A face may only refer to data that precedes it: a face one of whose nine
   * indices lies past the end of its pool throws the `.at` error, however
   * large the pools are.
   */
  lemma ForwardReferenceThrows(ds: seq<Directive>, k: nat)
    requires k < |ds| && ds[k].F?
    requires WellFormed(ds[..k])
    requires PastEnd(PoolsOf(ds[..k]), ds[k].c0) || PastEnd(PoolsOf(ds[..k]), ds[k].c1) || PastEnd(PoolsOf(ds[..k]), ds[k].c2)
    ensures Load(ds).Failure? && Load(ds).error.kind == OutOfRange
  {
    var pre, d := ds[..k], ds[k];
    var l := Loader(PoolsOf(pre), Expected(pre));
    RunWellFormed(pre);
    assert ds[..k + 1] == pre + [d];
    RunSnoc(EmptyLoader, pre, d);
    var cs := [d.c0, d.c1, d.c2];
    assert cs[0] == d.c0 && cs[1] == d.c1 && cs[2] == d.c2;
    var r := Step(l, d);
    CompletedWithinPools(l.pools, cs, l.mesh, if r.Success? then r.value.mesh else l.mesh);
    RunStopsAtThrow(EmptyLoader, ds, k + 1);
  }

  /** Records that are not faces leave the outputs as they were. */
  lemma NonFacesKeepOutputs(ds: seq<Directive>, d: Directive)
    requires !d.F? && !d.BadF?
    ensures Load(ds + [d]) == Load(ds)
  {
    RunSnoc(EmptyLoader, ds, d);
  }
}
