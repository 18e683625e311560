/**
  The Thai address cascade: province names, the districts (amphures) of a
  province, the sub-districts (tambons) of a district and the postal code of a
  sub-district, computed from three read-only tables. Every lookup takes the
  FIRST record that matches, and every failure yields an empty result. The
  loaders keep each table in a module-level cache once a fetch has succeeded.
*/
module ThaiAddress {
  import opened Wrappers
  import opened TextOrder
  import Js

  datatype Province = Province(id: int, nameTh: string, nameEn: string, geographyId: int)
  datatype Amphure = Amphure(id: int, nameTh: string, nameEn: string, provinceId: int)
  datatype Tambon = Tambon(id: int, zipCode: nat, nameTh: string, nameEn: string, amphureId: int)

  /** `s.find(p)`, as the index of the first element satisfying `p`. */
  function FirstIndex<T>(s: seq<T>, p: T -> bool): (r: Option<nat>)
    ensures r.Some? ==> r.value < |s| && p(s[r.value])
    ensures r.Some? ==> forall j :: 0 <= j < r.value ==> !p(s[j])
    ensures r.None? ==> forall j :: 0 <= j < |s| ==> !p(s[j])
    decreases |s|
  {
    if s == [] then None
    else if p(s[0]) then Some(0)
    else
      match FirstIndex(s[1..], p)
      case None => None
      case Some(k) => Some(k + 1)
  }

  function FindProvince(ps: seq<Province>, name: string): Option<nat> {
    FirstIndex(ps, (p: Province) => p.nameTh == name)
  }

  function FindAmphure(ams: seq<Amphure>, provinceId: int, name: string): Option<nat> {
    FirstIndex(ams, (a: Amphure) => a.provinceId == provinceId && a.nameTh == name)
  }

  function FindTambon(ts: seq<Tambon>, amphureId: int, name: string): Option<nat> {
    FirstIndex(ts, (t: Tambon) => t.amphureId == amphureId && t.nameTh == name)
  }

  /** `provinces.map(p => p.name_th)`. */
  function ProvinceNamesUnsorted(ps: seq<Province>): (r: seq<string>)
    ensures |r| == |ps|
    ensures forall i :: 0 <= i < |ps| ==> r[i] == ps[i].nameTh
  {
    seq(|ps|, i requires 0 <= i < |ps| => ps[i].nameTh)
  }

  /** `amphures.filter(a => a.province_id === id).map(a => a.name_th)`. */
  function AmphureNames(ams: seq<Amphure>, provinceId: int): (r: seq<string>)
    ensures |r| <= |ams|
    ensures forall n :: n in r ==> exists k :: 0 <= k < |ams| && ams[k].provinceId == provinceId && ams[k].nameTh == n
    decreases |ams|
  {
    if ams == [] then []
    else
      var rest := AmphureNames(ams[1..], provinceId);
      assert forall n :: n in rest ==> exists k :: 0 <= k < |ams| && ams[k].provinceId == provinceId && ams[k].nameTh == n by {
        forall n | n in rest
          ensures exists k :: 0 <= k < |ams| && ams[k].provinceId == provinceId && ams[k].nameTh == n
        {
          var k :| 0 <= k < |ams[1..]| && ams[1..][k].provinceId == provinceId && ams[1..][k].nameTh == n;
          assert ams[k + 1] == ams[1..][k];
        }
      }
      if ams[0].provinceId == provinceId then [ams[0].nameTh] + rest else rest
  }

  /** Every amphure of the province contributes its name. */
  lemma {:induction false} AmphureNamesComplete(ams: seq<Amphure>, provinceId: int, k: nat)
    requires k < |ams| && ams[k].provinceId == provinceId
    ensures ams[k].nameTh in AmphureNames(ams, provinceId)
    decreases k
  {
    if k > 0 {
      assert ams[1..][k - 1] == ams[k];
      AmphureNamesComplete(ams[1..], provinceId, k - 1);
    }
  }

  /** The filter keeps table order: it distributes over concatenation of tables. */
  lemma {:induction false} AmphureNamesAppend(a: seq<Amphure>, b: seq<Amphure>, provinceId: int)
    ensures AmphureNames(a + b, provinceId) == AmphureNames(a, provinceId) + AmphureNames(b, provinceId)
    decreases |a|
  {
    if a == [] {
      assert a + b == b;
    } else {
      assert (a + b)[0] == a[0];
      assert (a + b)[1..] == a[1..] + b;
      AmphureNamesAppend(a[1..], b, provinceId);
    }
  }

  /** `tambons.filter(t => t.amphure_id === id).map(t => t.name_th)`. */
  function TambonNames(ts: seq<Tambon>, amphureId: int): (r: seq<string>)
    ensures |r| <= |ts|
    ensures forall n :: n in r ==> exists k :: 0 <= k < |ts| && ts[k].amphureId == amphureId && ts[k].nameTh == n
    decreases |ts|
  {
    if ts == [] then []
    else
      var rest := TambonNames(ts[1..], amphureId);
      assert forall n :: n in rest ==> exists k :: 0 <= k < |ts| && ts[k].amphureId == amphureId && ts[k].nameTh == n by {
        forall n | n in rest
          ensures exists k :: 0 <= k < |ts| && ts[k].amphureId == amphureId && ts[k].nameTh == n
        {
          var k :| 0 <= k < |ts[1..]| && ts[1..][k].amphureId == amphureId && ts[1..][k].nameTh == n;
          assert ts[k + 1] == ts[1..][k];
        }
      }
      if ts[0].amphureId == amphureId then [ts[0].nameTh] + rest else rest
  }

  /** Every tambon of the amphure contributes its name. */
  lemma {:induction false} TambonNamesComplete(ts: seq<Tambon>, amphureId: int, k: nat)
    requires k < |ts| && ts[k].amphureId == amphureId
    ensures ts[k].nameTh in TambonNames(ts, amphureId)
    decreases k
  {
    if k > 0 {
      assert ts[1..][k - 1] == ts[k];
      TambonNamesComplete(ts[1..], amphureId, k - 1);
    }
  }

  /** `getProvinces`: the Thai name of every province, sorted. */
  function ProvinceNames(ps: seq<Province>): (r: seq<string>)
    ensures |r| == |ps|
    ensures Sorted(r)
    ensures multiset(r) == multiset(ProvinceNamesUnsorted(ps))
  {
    Sort(ProvinceNamesUnsorted(ps))
  }

  /** A name is listed exactly when some province carries it. */
  lemma ProvinceNamesMembership(ps: seq<Province>, n: string)
    ensures n in ProvinceNames(ps) <==> exists i :: 0 <= i < |ps| && ps[i].nameTh == n
  {
    var u := ProvinceNamesUnsorted(ps);
    assert n in ProvinceNames(ps) <==> n in multiset(u);
    if exists i :: 0 <= i < |ps| && ps[i].nameTh == n {
      var i :| 0 <= i < |ps| && ps[i].nameTh == n;
      assert u[i] == n;
    }
  }

  /** `getAmphuresByProvince`. */
  function AmphuresByProvince(ps: seq<Province>, ams: seq<Amphure>, provinceName: string): (r: seq<string>)
    ensures Sorted(r)
    ensures FindProvince(ps, provinceName).None? ==> r == []
    ensures FindProvince(ps, provinceName).Some? ==>
      multiset(r) == multiset(AmphureNames(ams, ps[FindProvince(ps, provinceName).value].id))
  {
    match FindProvince(ps, provinceName)
    case None => []
    case Some(i) => Sort(AmphureNames(ams, ps[i].id))
  }

  /** No province with that name: no districts. */
  lemma UnknownProvinceHasNoAmphures(ps: seq<Province>, ams: seq<Amphure>, provinceName: string)
    requires forall i :: 0 <= i < |ps| ==> ps[i].nameTh != provinceName
    ensures AmphuresByProvince(ps, ams, provinceName) == []
  {
  }

  /**
    With `i` the first province of that name, the districts listed are exactly
    the names of the amphures whose province id is that province's id.
  */
  lemma AmphuresOfFirstMatch(ps: seq<Province>, ams: seq<Amphure>, provinceName: string, i: nat)
    requires i < |ps| && ps[i].nameTh == provinceName
    requires forall j :: 0 <= j < i ==> ps[j].nameTh != provinceName
    ensures var r := AmphuresByProvince(ps, ams, provinceName);
      forall n :: n in r <==> exists k :: 0 <= k < |ams| && ams[k].provinceId == ps[i].id && ams[k].nameTh == n
  {
    assert FindProvince(ps, provinceName) == Some(i);
    var names := AmphureNames(ams, ps[i].id);
    var r := AmphuresByProvince(ps, ams, provinceName);
    SameElements(r, names);
    forall n ensures n in names <==> exists k :: 0 <= k < |ams| && ams[k].provinceId == ps[i].id && ams[k].nameTh == n {
      if exists k :: 0 <= k < |ams| && ams[k].provinceId == ps[i].id && ams[k].nameTh == n {
        var k :| 0 <= k < |ams| && ams[k].provinceId == ps[i].id && ams[k].nameTh == n;
        AmphureNamesComplete(ams, ps[i].id, k);
      }
    }
  }

  /** Sequences with equal multisets hold the same elements. */
  lemma SameElements(a: seq<string>, b: seq<string>)
    requires multiset(a) == multiset(b)
    ensures forall n :: n in a <==> n in b
  {
    forall n ensures n in a <==> n in b {
      assert n in a <==> n in multiset(a);
      assert n in b <==> n in multiset(b);
    }
  }

  /** `getTambonsByProvinceAndAmphure`. */
  function TambonsByProvinceAndAmphure(ps: seq<Province>, ams: seq<Amphure>, ts: seq<Tambon>,
                                       provinceName: string, amphureName: string): (r: seq<string>)
    ensures Sorted(r)
    ensures FindProvince(ps, provinceName).None? ==> r == []
    ensures (FindProvince(ps, provinceName).Some? &&
             FindAmphure(ams, ps[FindProvince(ps, provinceName).value].id, amphureName).None?) ==> r == []
    ensures (FindProvince(ps, provinceName).Some? &&
             FindAmphure(ams, ps[FindProvince(ps, provinceName).value].id, amphureName).Some?) ==>
      multiset(r) == multiset(TambonNames(ts, ams[FindAmphure(ams, ps[FindProvince(ps, provinceName).value].id, amphureName).value].id))
  {
    match FindProvince(ps, provinceName)
    case None => []
    case Some(i) =>
      match FindAmphure(ams, ps[i].id, amphureName)
      case None => []
      case Some(k) => Sort(TambonNames(ts, ams[k].id))
  }

  /**
    With `i` the first province of that name and `k` the first amphure of that
    province with that name, the sub-districts listed are exactly the names of
    the tambons whose amphure id is that amphure's id.
  */
  lemma TambonsOfFirstMatch(ps: seq<Province>, ams: seq<Amphure>, ts: seq<Tambon>,
                            provinceName: string, amphureName: string, i: nat, k: nat)
    requires i < |ps| && ps[i].nameTh == provinceName
    requires forall j :: 0 <= j < i ==> ps[j].nameTh != provinceName
    requires k < |ams| && ams[k].provinceId == ps[i].id && ams[k].nameTh == amphureName
    requires forall j :: 0 <= j < k ==> !(ams[j].provinceId == ps[i].id && ams[j].nameTh == amphureName)
    ensures var r := TambonsByProvinceAndAmphure(ps, ams, ts, provinceName, amphureName);
      forall n :: n in r <==> exists m :: 0 <= m < |ts| && ts[m].amphureId == ams[k].id && ts[m].nameTh == n
  {
    assert FindProvince(ps, provinceName) == Some(i);
    assert FindAmphure(ams, ps[i].id, amphureName) == Some(k);
    var names := TambonNames(ts, ams[k].id);
    var r := TambonsByProvinceAndAmphure(ps, ams, ts, provinceName, amphureName);
    assert multiset(r) == multiset(names);
    SameElements(r, names);
    forall n ensures n in names <==> exists m :: 0 <= m < |ts| && ts[m].amphureId == ams[k].id && ts[m].nameTh == n {
      if exists m :: 0 <= m < |ts| && ts[m].amphureId == ams[k].id && ts[m].nameTh == n {
        var m :| 0 <= m < |ts| && ts[m].amphureId == ams[k].id && ts[m].nameTh == n;
        TambonNamesComplete(ts, ams[k].id, m);
      }
    }
  }

  /** `getPostalCode`: the decimal `zip_code` of the first matching tambon, or `''`. */
  function PostalCode(ps: seq<Province>, ams: seq<Amphure>, ts: seq<Tambon>,
                      provinceName: string, amphureName: string, tambonName: string): (r: string)
    ensures r == "" || forall c :: c in r ==> Js.IsDigit(c)
  {
    match FindProvince(ps, provinceName)
    case None => ""
    case Some(i) =>
      match FindAmphure(ams, ps[i].id, amphureName)
      case None => ""
      case Some(k) =>
        match FindTambon(ts, ams[k].id, tambonName)
        case None => ""
        case Some(m) => Js.NatToString(ts[m].zipCode)
  }

  /** A missing province, amphure within it, or tambon within that amphure gives `''`. */
  lemma PostalCodeMissing(ps: seq<Province>, ams: seq<Amphure>, ts: seq<Tambon>,
                          provinceName: string, amphureName: string, tambonName: string)
    ensures (forall i :: 0 <= i < |ps| ==> ps[i].nameTh != provinceName) ==>
      PostalCode(ps, ams, ts, provinceName, amphureName, tambonName) == ""
    ensures forall i :: (0 <= i < |ps| && ps[i].nameTh == provinceName &&
        (forall j :: 0 <= j < i ==> ps[j].nameTh != provinceName) &&
        (forall k :: 0 <= k < |ams| ==> !(ams[k].provinceId == ps[i].id && ams[k].nameTh == amphureName))) ==>
      PostalCode(ps, ams, ts, provinceName, amphureName, tambonName) == ""
  {
    forall i | 0 <= i < |ps| && ps[i].nameTh == provinceName &&
        (forall j :: 0 <= j < i ==> ps[j].nameTh != provinceName) &&
        (forall k :: 0 <= k < |ams| ==> !(ams[k].provinceId == ps[i].id && ams[k].nameTh == amphureName))
      ensures PostalCode(ps, ams, ts, provinceName, amphureName, tambonName) == ""
    {
      assert FindProvince(ps, provinceName) == Some(i);
    }
  }

  /**
    The first match wins: with `i`, `k`, `m` the first matching province,
    amphure and tambon, the postal code is the numeral of that tambon's
    `zip_code`, whatever later records say; with no matching tambon it is `''`.
  */
  lemma PostalCodeOfFirstMatch(ps: seq<Province>, ams: seq<Amphure>, ts: seq<Tambon>,
                               provinceName: string, amphureName: string, tambonName: string, i: nat, k: nat)
    requires i < |ps| && ps[i].nameTh == provinceName
    requires forall j :: 0 <= j < i ==> ps[j].nameTh != provinceName
    requires k < |ams| && ams[k].provinceId == ps[i].id && ams[k].nameTh == amphureName
    requires forall j :: 0 <= j < k ==> !(ams[j].provinceId == ps[i].id && ams[j].nameTh == amphureName)
    ensures forall m :: (0 <= m < |ts| && ts[m].amphureId == ams[k].id && ts[m].nameTh == tambonName &&
        (forall j :: 0 <= j < m ==> !(ts[j].amphureId == ams[k].id && ts[j].nameTh == tambonName))) ==>
      PostalCode(ps, ams, ts, provinceName, amphureName, tambonName) == Js.NatToString(ts[m].zipCode)
    ensures (forall m :: 0 <= m < |ts| ==> !(ts[m].amphureId == ams[k].id && ts[m].nameTh == tambonName)) ==>
      PostalCode(ps, ams, ts, provinceName, amphureName, tambonName) == ""
  {
    assert FindProvince(ps, provinceName) == Some(i);
    assert FindAmphure(ams, ps[i].id, amphureName) == Some(k);
    forall m | 0 <= m < |ts| && ts[m].amphureId == ams[k].id && ts[m].nameTh == tambonName &&
        (forall j :: 0 <= j < m ==> !(ts[j].amphureId == ams[k].id && ts[j].nameTh == tambonName))
      ensures PostalCode(ps, ams, ts, provinceName, amphureName, tambonName) == Js.NatToString(ts[m].zipCode)
    {
      assert FindTambon(ts, ams[k].id, tambonName) == Some(m);
    }
  }

  // ---------------------------------------------------------------- loaders

  /** What the provinces loader returns after a failed fetch (it is not cached). */
  const FallbackProvinces: seq<Province> := [
    Province(1, "กรุงเทพมหานคร", "Bangkok", 2),
    Province(2, "เชียงใหม่", "Chiang Mai", 1),
    Province(3, "เชียงราย", "Chiang Rai", 1)
  ]

  /** With the fallback table, `getProvinces` lists the three names in code-unit order. */
  lemma FallbackProvinceNames()
    ensures ProvinceNames(FallbackProvinces) == ["กรุงเทพมหานคร", "เชียงราย", "เชียงใหม่"]
  {
    var expected := ["กรุงเทพมหานคร", "เชียงราย", "เชียงใหม่"];
    FallbackNamesInOrder();
    FallbackNamesUnsorted();
    SortedUnique(ProvinceNames(FallbackProvinces), expected);
  }

  lemma FallbackNamesUnsorted()
    ensures multiset(ProvinceNamesUnsorted(FallbackProvinces)) == multiset(["กรุงเทพมหานคร", "เชียงราย", "เชียงใหม่"])
  {
    assert ProvinceNamesUnsorted(FallbackProvinces) == ["กรุงเทพมหานคร", "เชียงใหม่", "เชียงราย"];
  }

  lemma FallbackNamesInOrder()
    ensures Sorted(["กรุงเทพมหานคร", "เชียงราย", "เชียงใหม่"])
  {
    var bangkok, chiangRai, chiangMai := "กรุงเทพมหานคร", "เชียงราย", "เชียงใหม่";
    assert Below(bangkok, chiangRai);
    BelowSharedPrefix(chiangRai, chiangMai, 5);
    BelowTransitive(bangkok, chiangRai, chiangMai);
    var e := [bangkok, chiangRai, chiangMai];
    forall i, j | 0 <= i < j < 3 ensures Below(e[i], e[j]) {
    }
  }

  /** Two strings that agree on their first `n` characters compare as their tails do. */
  lemma {:induction false} BelowSharedPrefix(a: string, b: string, n: nat)
    requires n <= |a| && n <= |b| && a[..n] == b[..n]
    requires n < |a| && n < |b| && a[n] < b[n]
    ensures Below(a, b)
    decreases n
  {
    if n > 0 {
      assert a[0] == a[..n][0] == b[..n][0] == b[0];
      assert a[1..][..n - 1] == a[..n][1..] == b[..n][1..] == b[1..][..n - 1];
      BelowSharedPrefix(a[1..], b[1..], n - 1);
    }
  }

  /**
    The table a loader returns: the cache if set (even an empty array is
    truthy), else the fetched table, else the fallback. `fetched` is None when
    the fetch fails or answers with a non-OK status.
  */
  function Loaded<T>(cache: Option<seq<T>>, fetched: Option<seq<T>>, fallback: seq<T>): seq<T> {
    match cache
    case Some(c) => c
    case None => fetched.GetOr(fallback)
  }

  /** The cache after a load: set by the first successful fetch, never by a failure. */
  function Cached<T>(cache: Option<seq<T>>, fetched: Option<seq<T>>): Option<seq<T>> {
    if cache.Some? then cache else fetched
  }

  /** A set cache answers every later load, with it and unchanged, whatever the fetch would give. */
  lemma CacheHit<T>(cache: Option<seq<T>>, fetched: Option<seq<T>>, fallback: seq<T>)
    requires cache.Some?
    ensures Loaded(cache, fetched, fallback) == cache.value
    ensures Cached(cache, fetched) == cache
  {
  }

  /** A failed first load returns the fallback and leaves the cache empty. */
  lemma FailedLoadNotCached<T>(fetched: Option<seq<T>>, fallback: seq<T>)
    requires fetched.None?
    ensures Loaded(None, fetched, fallback) == fallback
    ensures Cached(None, fetched) == None
  {
  }

  /** Once one load has succeeded, every later load returns what it returned. */
  lemma LoadStable<T>(cache: Option<seq<T>>, first: Option<seq<T>>, later: Option<seq<T>>, fallback: seq<T>)
    requires Cached(cache, first).Some?
    ensures Loaded(Cached(cache, first), later, fallback) == Loaded(cache, first, fallback)
  {
  }

  /** The three module-level caches and the operations that go through them. */
  class AddressCache {
    var provinces: Option<seq<Province>>
    var amphures: Option<seq<Amphure>>
    var tambons: Option<seq<Tambon>>

    constructor ()
      ensures provinces == None && amphures == None && tambons == None
    {
      provinces, amphures, tambons := None, None, None;
    }

    /** `loadProvinces`, given what the fetch of the provinces table yields. */
    method LoadProvinces(fetched: Option<seq<Province>>) returns (r: seq<Province>)
      modifies this`provinces
      ensures r == Loaded(old(provinces), fetched, FallbackProvinces)
      ensures provinces == Cached(old(provinces), fetched)
    {
      if provinces.Some? {
        return provinces.value;
      }
      match fetched
      case Some(data) =>
        provinces := Some(data);
        r := data;
      case None =>
        r := FallbackProvinces;
    }

    /** `loadAmphures`: an empty table on failure. */
    method LoadAmphures(fetched: Option<seq<Amphure>>) returns (r: seq<Amphure>)
      modifies this`amphures
      ensures r == Loaded(old(amphures), fetched, [])
      ensures amphures == Cached(old(amphures), fetched)
    {
      if amphures.Some? {
        return amphures.value;
      }
      match fetched
      case Some(data) =>
        amphures := Some(data);
        r := data;
      case None =>
        r := [];
    }

    /** `loadTambons`: an empty table on failure. */
    method LoadTambons(fetched: Option<seq<Tambon>>) returns (r: seq<Tambon>)
      modifies this`tambons
      ensures r == Loaded(old(tambons), fetched, [])
      ensures tambons == Cached(old(tambons), fetched)
    {
      if tambons.Some? {
        return tambons.value;
      }
      match fetched
      case Some(data) =>
        tambons := Some(data);
        r := data;
      case None =>
        r := [];
    }

    method GetProvinces(fetched: Option<seq<Province>>) returns (r: seq<string>)
      modifies this`provinces
      ensures r == ProvinceNames(Loaded(old(provinces), fetched, FallbackProvinces))
      ensures provinces == Cached(old(provinces), fetched)
    {
      var ps := LoadProvinces(fetched);
      r := ProvinceNames(ps);
    }

    method GetAmphuresByProvince(provinceName: string, fetchedProvinces: Option<seq<Province>>,
                                 fetchedAmphures: Option<seq<Amphure>>) returns (r: seq<string>)
      modifies this`provinces, this`amphures
      ensures r == AmphuresByProvince(Loaded(old(provinces), fetchedProvinces, FallbackProvinces),
                                      Loaded(old(amphures), fetchedAmphures, []), provinceName)
      ensures provinces == Cached(old(provinces), fetchedProvinces)
      ensures amphures == Cached(old(amphures), fetchedAmphures)
    {
      var ps := LoadProvinces(fetchedProvinces);
      var ams := LoadAmphures(fetchedAmphures);
      r := AmphuresByProvince(ps, ams, provinceName);
    }

    method GetTambonsByProvinceAndAmphure(provinceName: string, amphureName: string,
                                          fetchedProvinces: Option<seq<Province>>,
                                          fetchedAmphures: Option<seq<Amphure>>,
                                          fetchedTambons: Option<seq<Tambon>>) returns (r: seq<string>)
      modifies this`provinces, this`amphures, this`tambons
      ensures r == TambonsByProvinceAndAmphure(Loaded(old(provinces), fetchedProvinces, FallbackProvinces),
                                               Loaded(old(amphures), fetchedAmphures, []),
                                               Loaded(old(tambons), fetchedTambons, []),
                                               provinceName, amphureName)
      ensures provinces == Cached(old(provinces), fetchedProvinces)
      ensures amphures == Cached(old(amphures), fetchedAmphures)
      ensures tambons == Cached(old(tambons), fetchedTambons)
    {
      var ps := LoadProvinces(fetchedProvinces);
      var ams := LoadAmphures(fetchedAmphures);
      var ts := LoadTambons(fetchedTambons);
      r := TambonsByProvinceAndAmphure(ps, ams, ts, provinceName, amphureName);
    }

    method GetPostalCode(provinceName: string, amphureName: string, tambonName: string,
                         fetchedProvinces: Option<seq<Province>>,
                         fetchedAmphures: Option<seq<Amphure>>,
                         fetchedTambons: Option<seq<Tambon>>) returns (r: string)
      modifies this`provinces, this`amphures, this`tambons
      ensures r == PostalCode(Loaded(old(provinces), fetchedProvinces, FallbackProvinces),
                              Loaded(old(amphures), fetchedAmphures, []),
                              Loaded(old(tambons), fetchedTambons, []),
                              provinceName, amphureName, tambonName)
      ensures provinces == Cached(old(provinces), fetchedProvinces)
      ensures amphures == Cached(old(amphures), fetchedAmphures)
      ensures tambons == Cached(old(tambons), fetchedTambons)
    {
      var ps := LoadProvinces(fetchedProvinces);
      var ams := LoadAmphures(fetchedAmphures);
      var ts := LoadTambons(fetchedTambons);
      r := PostalCode(ps, ams, ts, provinceName, amphureName, tambonName);
    }
  }
}
