/**
  The simplestreams repository of incuslib/simplestreams.py: the catalog
  (`streams/v1/images.json`: product -> version -> item -> {path, sha256}), the paths it
  references, the removals of superseded versions, the pruning of `images/`, and the
  import of a published image.

  JSON objects are association lists in document order, as `json.load` builds dicts;
  `DistinctKeys` says a list really comes from a dict.
 */
module Streams {
  import opened Wrappers
  import Strings
  import Incus

  // ---------------------------------------------------------------------------
  // The catalog
  // ---------------------------------------------------------------------------

  datatype Item = Item(path: string, sha256: string)
  datatype Version = Version(items: seq<(string, Item)>)
  datatype Product = Product(versions: seq<(string, Version)>)
  datatype Catalog = Catalog(products: seq<(string, Product)>)

  /** `d.keys()`, in order. */
  function Keys<V>(d: seq<(string, V)>): (ks: seq<string>)
    ensures |ks| == |d|
    ensures forall k :: 0 <= k < |d| ==> ks[k] == d[k].0
  {
    seq(|d|, k requires 0 <= k < |d| => d[k].0)
  }

  ghost predicate DistinctKeys<V>(d: seq<(string, V)>)
  {
    forall i, j :: 0 <= i < j < |d| ==> d[i].0 != d[j].0
  }

  /** Every JSON object of the catalog has distinct keys. */
  ghost predicate WellFormed(c: Catalog)
  {
    && DistinctKeys(c.products)
    && forall i :: 0 <= i < |c.products| ==> DistinctKeys(c.products[i].1.versions)
  }

  /** `d[key]` */
  function Get<V>(d: seq<(string, V)>, key: string): (v: V)
    requires key in Keys(d)
    ensures exists k :: 0 <= k < |d| && d[k] == (key, v)
  {
    if d[0].0 == key then d[0].1
    else
      assert Keys(d) == [d[0].0] + Keys(d[1..]);
      var v := Get(d[1..], key);
      ghost var k :| 0 <= k < |d[1..]| && d[1..][k] == (key, v);
      assert d[k + 1] == (key, v);
      v
  }

  /** With distinct keys, `Get` returns the value stored under the key. */
  lemma GetAt<V>(d: seq<(string, V)>, k: nat)
    requires DistinctKeys(d) && k < |d|
    ensures d[k].0 in Keys(d) && Get(d, d[k].0) == d[k].1
  {
    assert Keys(d)[k] == d[k].0;
    var j :| 0 <= j < |d| && d[j] == (d[k].0, Get(d, d[k].0));
  }

  // ---------------------------------------------------------------------------
  // images_paths: every item's path under the repository root
  // ---------------------------------------------------------------------------

  /** The items of one version, in order (`version["items"].values()`). */
  function VersionItems(v: Version): (items: seq<Item>)
    ensures |items| == |v.items|
    ensures forall k :: 0 <= k < |v.items| ==> items[k] == v.items[k].1
  {
    seq(|v.items|, k requires 0 <= k < |v.items| => v.items[k].1)
  }

  function ProductItems(versions: seq<(string, Version)>): seq<Item>
  {
    if versions == [] then [] else VersionItems(versions[0].1) + ProductItems(versions[1..])
  }

  function CatalogItems(products: seq<(string, Product)>): seq<Item>
  {
    if products == [] then [] else ProductItems(products[0].1.versions) + CatalogItems(products[1..])
  }

  /** `images_paths`: `root / item["path"]` for every item of every version of every product. */
  function ImagesPaths(root: string, c: Catalog): seq<string>
  {
    var items := CatalogItems(c.products);
    seq(|items|, k requires 0 <= k < |items| => Strings.Child(root, items[k].path))
  }

  // An independent count of the items of a catalog.

  function VersionsItemCount(versions: seq<(string, Version)>): nat
  {
    if versions == [] then 0 else |versions[0].1.items| + VersionsItemCount(versions[1..])
  }

  function ItemCount(products: seq<(string, Product)>): nat
  {
    if products == [] then 0 else VersionsItemCount(products[0].1.versions) + ItemCount(products[1..])
  }

  // An item occurring in the catalog, by position.

  ghost predicate InVersions(versions: seq<(string, Version)>, it: Item)
  {
    exists j, k :: 0 <= j < |versions| && 0 <= k < |versions[j].1.items| && versions[j].1.items[k].1 == it
  }

  ghost predicate InCatalog(c: Catalog, it: Item)
  {
    exists i :: 0 <= i < |c.products| && InVersions(c.products[i].1.versions, it)
  }

  lemma {:induction false} ProductItemsCount(versions: seq<(string, Version)>)
    ensures |ProductItems(versions)| == VersionsItemCount(versions)
  {
    if versions != [] { ProductItemsCount(versions[1..]); }
  }

  lemma {:induction false} CatalogItemsCount(products: seq<(string, Product)>)
    ensures |CatalogItems(products)| == ItemCount(products)
  {
    if products != [] {
      ProductItemsCount(products[0].1.versions);
      CatalogItemsCount(products[1..]);
    }
  }

  /** `images_paths` has exactly one entry per item, each the item's path under the root. */
  lemma ImagesPathsOnePerItem(root: string, c: Catalog)
    ensures |ImagesPaths(root, c)| == ItemCount(c.products)
    ensures forall k :: 0 <= k < |ImagesPaths(root, c)| ==>
      ImagesPaths(root, c)[k] == Strings.Child(root, CatalogItems(c.products)[k].path)
  {
    CatalogItemsCount(c.products);
  }

  lemma {:induction false} ProductItemsMembers(versions: seq<(string, Version)>, it: Item)
    ensures it in ProductItems(versions) <==> InVersions(versions, it)
  {
    if versions != [] {
      ProductItemsMembers(versions[1..], it);
      if it in VersionItems(versions[0].1) {
        var k :| 0 <= k < |versions[0].1.items| && VersionItems(versions[0].1)[k] == it;
        assert versions[0].1.items[k].1 == it;
      }
      if InVersions(versions, it) {
        var j, k :| 0 <= j < |versions| && 0 <= k < |versions[j].1.items| && versions[j].1.items[k].1 == it;
        if j == 0 {
          assert VersionItems(versions[0].1)[k] == it;
        } else {
          assert versions[1..][j - 1] == versions[j];
        }
      }
      if InVersions(versions[1..], it) {
        var j, k :| 0 <= j < |versions[1..]| && 0 <= k < |versions[1..][j].1.items| && versions[1..][j].1.items[k].1 == it;
        assert versions[j + 1] == versions[1..][j];
      }
    }
  }

  lemma {:induction false} CatalogItemsMembers(products: seq<(string, Product)>, it: Item)
    ensures it in CatalogItems(products) <==> InCatalog(Catalog(products), it)
  {
    if products != [] {
      ProductItemsMembers(products[0].1.versions, it);
      CatalogItemsMembers(products[1..], it);
      if InCatalog(Catalog(products), it) {
        var i :| 0 <= i < |products| && InVersions(products[i].1.versions, it);
        if i > 0 { assert products[1..][i - 1] == products[i]; }
      }
      if InCatalog(Catalog(products[1..]), it) {
        var i :| 0 <= i < |products[1..]| && InVersions(products[1..][i].1.versions, it);
        assert products[i + 1] == products[1..][i];
      }
    }
  }

  /** A path is referenced exactly when it is the path of some item of the catalog. */
  lemma ImagesPathsMembers(root: string, c: Catalog, f: string)
    ensures f in ImagesPaths(root, c) <==> exists it :: InCatalog(c, it) && f == Strings.Child(root, it.path)
  {
    var items := CatalogItems(c.products);
    if f in ImagesPaths(root, c) {
      var k :| 0 <= k < |items| && ImagesPaths(root, c)[k] == f;
      CatalogItemsMembers(c.products, items[k]);
    }
    if exists it :: InCatalog(c, it) && f == Strings.Child(root, it.path) {
      var it :| InCatalog(c, it) && f == Strings.Child(root, it.path);
      CatalogItemsMembers(c.products, it);
      var k :| 0 <= k < |items| && items[k] == it;
      assert ImagesPaths(root, c)[k] == f;
    }
  }

  // ---------------------------------------------------------------------------
  // clean_previous_versions: removals of every version but the greatest
  // ---------------------------------------------------------------------------

  /** One `incus-simplestreams remove <sha256>`, with the item it comes from. */
  datatype Removal = Removal(product: string, version: string, sha256: string)

  /** `sorted(versions)[:-1]`: every version key but the greatest, ascending. */
  function Superseded(p: Product): (vs: seq<string>)
    ensures Strings.Sorted(vs)
    ensures forall v :: v in vs ==> v in Keys(p.versions)
    ensures |p.versions| <= 1 ==> vs == []
    ensures |p.versions| > 0 ==> |vs| == |p.versions| - 1
  {
    var sorted := Strings.Sort(Keys(p.versions));
    if sorted == [] then []
    else
      var vs := sorted[..|sorted| - 1];
      assert forall v :: v in vs ==> v in sorted;
      assert forall v :: v in sorted ==> v in multiset(Keys(p.versions));
      vs
  }

  /** The greatest version key of a product, the one `clean_previous_versions` keeps. */
  function Latest(p: Product): string
    requires |p.versions| > 0
  {
    var sorted := Strings.Sort(Keys(p.versions));
    sorted[|sorted| - 1]
  }

  lemma LatestIsGreatest(p: Product)
    requires |p.versions| > 0
    ensures Latest(p) in Keys(p.versions)
    ensures forall v :: v in Keys(p.versions) ==> Strings.Le(v, Latest(p))
  {
    var sorted := Strings.Sort(Keys(p.versions));
    assert Latest(p) in multiset(sorted);
    forall v | v in Keys(p.versions) ensures Strings.Le(v, Latest(p)) {
      assert v in multiset(sorted);
      Strings.SortedLastIsMax(sorted, v);
    }
  }

  lemma {:induction false} DistinctOnce(ks: seq<string>, x: string)
    requires forall i, j :: 0 <= i < j < |ks| ==> ks[i] != ks[j]
    ensures multiset(ks)[x] <= 1
  {
    if ks != [] {
      assert ks == [ks[0]] + ks[1..];
      DistinctOnce(ks[1..], x);
      if ks[0] == x { assert x !in ks[1..]; }
    }
  }

  /**
    With distinct version keys, the superseded versions are exactly the keys other than
    the greatest: the greatest is never among them, and every other one is.
   */
  lemma LatestNeverSuperseded(p: Product)
    requires DistinctKeys(p.versions) && |p.versions| > 0
    ensures Latest(p) !in Superseded(p)
    ensures forall v :: v in Keys(p.versions) && v != Latest(p) ==> v in Superseded(p)
  {
    var ks := Keys(p.versions);
    var sorted := Strings.Sort(ks);
    var n := |sorted|;
    assert sorted == sorted[..n - 1] + [sorted[n - 1]];
    assert multiset(sorted) == multiset(sorted[..n - 1]) + multiset{Latest(p)};
    DistinctOnce(ks, Latest(p));
    forall v | v in ks && v != Latest(p) ensures v in Superseded(p) {
      assert v in multiset(sorted);
    }
  }

  function VersionRemovals(product: string, version: string, v: Version): (rs: seq<Removal>)
  {
    seq(|v.items|, k requires 0 <= k < |v.items| => Removal(product, version, v.items[k].1.sha256))
  }

  /** The removals for the given versions of one product, in the given order. */
  function RemovalsOf(product: string, p: Product, versions: seq<string>): seq<Removal>
    requires forall v :: v in versions ==> v in Keys(p.versions)
  {
    if versions == [] then []
    else
      var last := versions[|versions| - 1];
      RemovalsOf(product, p, versions[..|versions| - 1]) + VersionRemovals(product, last, Get(p.versions, last))
  }

  function ProductRemovals(product: string, p: Product): seq<Removal>
  {
    RemovalsOf(product, p, Superseded(p))
  }

  /** The removals `clean_previous_versions` issues, product after product. */
  function Removals(products: seq<(string, Product)>): seq<Removal>
  {
    if products == [] then []
    else
      var last := products[|products| - 1];
      Removals(products[..|products| - 1]) + ProductRemovals(last.0, last.1)
  }

  /** The removal comes from an item of version `r.version` of product `p`. */
  ghost predicate FromItemOf(r: Removal, p: Product)
  {
    && r.version in Keys(p.versions)
    && exists k :: 0 <= k < |Get(p.versions, r.version).items| &&
         Get(p.versions, r.version).items[k].1.sha256 == r.sha256
  }

  lemma {:induction false} RemovalsOfFrom(product: string, p: Product, versions: seq<string>)
    requires forall v :: v in versions ==> v in Keys(p.versions)
    ensures forall r :: r in RemovalsOf(product, p, versions) ==>
      r.product == product && r.version in versions && FromItemOf(r, p)
  {
    if versions != [] {
      var n := |versions|;
      var last := versions[n - 1];
      RemovalsOfFrom(product, p, versions[..n - 1]);
      forall r | r in VersionRemovals(product, last, Get(p.versions, last))
        ensures r.product == product && r.version == last && FromItemOf(r, p)
      {
        var k :| 0 <= k < |Get(p.versions, last).items| && VersionRemovals(product, last, Get(p.versions, last))[k] == r;
      }
    }
  }

  lemma {:induction false} RemovalsOfComplete(product: string, p: Product, versions: seq<string>, v: string, k: nat)
    requires forall v :: v in versions ==> v in Keys(p.versions)
    requires v in versions && k < |Get(p.versions, v).items|
    ensures Removal(product, v, Get(p.versions, v).items[k].1.sha256) in RemovalsOf(product, p, versions)
  {
    var n := |versions|;
    if versions[n - 1] == v {
      assert VersionRemovals(product, v, Get(p.versions, v))[k] == Removal(product, v, Get(p.versions, v).items[k].1.sha256);
    } else {
      assert v in versions[..n - 1] by {
        var j :| 0 <= j < n && versions[j] == v;
        assert versions[..n - 1][j] == v;
      }
      RemovalsOfComplete(product, p, versions[..n - 1], v, k);
    }
  }

  /** Removals within a product go in ascending version order. */
  lemma {:induction false} RemovalsOfAscending(product: string, p: Product, versions: seq<string>)
    requires forall v :: v in versions ==> v in Keys(p.versions)
    requires Strings.Sorted(versions)
    ensures forall i, j :: 0 <= i < j < |RemovalsOf(product, p, versions)| ==>
      Strings.Le(RemovalsOf(product, p, versions)[i].version, RemovalsOf(product, p, versions)[j].version)
  {
    if versions != [] {
      var n := |versions|;
      var last := versions[n - 1];
      var front := RemovalsOf(product, p, versions[..n - 1]);
      var tail := VersionRemovals(product, last, Get(p.versions, last));
      var rs := RemovalsOf(product, p, versions);
      assert rs == front + tail;
      RemovalsOfAscending(product, p, versions[..n - 1]);
      RemovalsOfFrom(product, p, versions[..n - 1]);
      Strings.LeReflexive(last);
      forall i, j | 0 <= i < j < |rs| ensures Strings.Le(rs[i].version, rs[j].version) {
        if j >= |front| {
          assert rs[j] == tail[j - |front|];
          if i >= |front| {
            assert rs[i] == tail[i - |front|];
          } else {
            assert rs[i] in front;
            var m :| 0 <= m < n - 1 && versions[..n - 1][m] == rs[i].version;
            assert versions[m] == rs[i].version;
          }
        }
      }
    }
  }

  /**
    Per product: every removal names a superseded version and the hash of one of its
    items; every item of every superseded version is removed; removals ascend by version.
   */
  lemma ProductRemovalsSpec(product: string, p: Product)
    ensures forall r :: r in ProductRemovals(product, p) ==>
      r.product == product && r.version in Superseded(p) && FromItemOf(r, p)
    ensures forall v, k :: v in Superseded(p) && 0 <= k < |Get(p.versions, v).items| ==>
      Removal(product, v, Get(p.versions, v).items[k].1.sha256) in ProductRemovals(product, p)
    ensures forall i, j :: 0 <= i < j < |ProductRemovals(product, p)| ==>
      Strings.Le(ProductRemovals(product, p)[i].version, ProductRemovals(product, p)[j].version)
  {
    RemovalsOfFrom(product, p, Superseded(p));
    RemovalsOfAscending(product, p, Superseded(p));
    forall v, k | v in Superseded(p) && 0 <= k < |Get(p.versions, v).items|
      ensures Removal(product, v, Get(p.versions, v).items[k].1.sha256) in ProductRemovals(product, p)
    {
      RemovalsOfComplete(product, p, Superseded(p), v, k);
    }
  }

  /** Every removal of a catalog comes from a superseded version of a product of that name. */
  lemma {:induction false} RemovalsFrom(products: seq<(string, Product)>)
    ensures forall r :: r in Removals(products) ==>
      exists i :: 0 <= i < |products| && products[i].0 == r.product && r.version in Superseded(products[i].1)
  {
    if products != [] {
      var n := |products|;
      RemovalsFrom(products[..n - 1]);
      ProductRemovalsSpec(products[n - 1].0, products[n - 1].1);
      forall r | r in Removals(products)
        ensures exists i :: 0 <= i < n && products[i].0 == r.product && r.version in Superseded(products[i].1)
      {
        if r in Removals(products[..n - 1]) {
          var i :| 0 <= i < n - 1 && products[..n - 1][i].0 == r.product && r.version in Superseded(products[..n - 1][i].1);
          assert products[i] == products[..n - 1][i];
        } else {
          assert r in ProductRemovals(products[n - 1].0, products[n - 1].1);
        }
      }
    }
  }

  /** In a well-formed catalog no removal ever names the greatest version of its product. */
  lemma LatestVersionsUntouched(c: Catalog)
    requires WellFormed(c)
    ensures forall r, i :: r in Removals(c.products) && 0 <= i < |c.products| && c.products[i].0 == r.product ==>
      |c.products[i].1.versions| > 0 && r.version != Latest(c.products[i].1)
  {
    RemovalsFrom(c.products);
    forall r, i | r in Removals(c.products) && 0 <= i < |c.products| && c.products[i].0 == r.product
      ensures |c.products[i].1.versions| > 0 && r.version != Latest(c.products[i].1)
    {
      var i' :| 0 <= i' < |c.products| && c.products[i'].0 == r.product && r.version in Superseded(c.products[i'].1);
      assert i' == i;
      LatestNeverSuperseded(c.products[i].1);
    }
  }

  /** A product with zero or one version gets no removal; so a catalog of such products gets none. */
  lemma {:induction false} SingleVersionsNoRemovals(products: seq<(string, Product)>)
    requires forall i :: 0 <= i < |products| ==> |products[i].1.versions| <= 1
    ensures Removals(products) == []
  {
    if products != [] {
      SingleVersionsNoRemovals(products[..|products| - 1]);
    }
  }

  lemma RemovalsOfStep(product: string, p: Product, versions: seq<string>, j: nat)
    requires forall v :: v in versions ==> v in Keys(p.versions)
    requires j < |versions|
    ensures RemovalsOf(product, p, versions[..j + 1])
         == RemovalsOf(product, p, versions[..j]) + VersionRemovals(product, versions[j], Get(p.versions, versions[j]))
  {
    assert versions[..j + 1][..j] == versions[..j];
  }

  lemma RemovalsStep(products: seq<(string, Product)>, i: nat)
    requires i < |products|
    ensures Removals(products[..i + 1]) == Removals(products[..i]) + ProductRemovals(products[i].0, products[i].1)
  {
    assert products[..i + 1][..i] == products[..i];
  }

  /** The command that removes one item by hash, run in the repository. */
  function RemoveCall(repo: string, sha256: string): Incus.Call
  {
    Incus.Call(["incus-simplestreams", "remove", sha256], Some(repo))
  }

  function RemoveCalls(repo: string, rs: seq<Removal>): (calls: seq<Incus.Call>)
    ensures |calls| == |rs|
    ensures forall k :: 0 <= k < |rs| ==> calls[k] == RemoveCall(repo, rs[k].sha256)
  {
    seq(|rs|, k requires 0 <= k < |rs| => RemoveCall(repo, rs[k].sha256))
  }

  lemma RemoveCallsAppend(repo: string, a: seq<Removal>, b: seq<Removal>)
    ensures RemoveCalls(repo, a + b) == RemoveCalls(repo, a) + RemoveCalls(repo, b)
  {
  }

  /** The hashes the removals carry, in order. */
  function Hashes(rs: seq<Removal>): (hs: seq<string>)
    ensures |hs| == |rs|
    ensures forall k :: 0 <= k < |rs| ==> hs[k] == rs[k].sha256
  {
    seq(|rs|, k requires 0 <= k < |rs| => rs[k].sha256)
  }

  lemma HashesAppend(a: seq<Removal>, b: seq<Removal>)
    ensures Hashes(a + b) == Hashes(a) + Hashes(b)
  {
  }

  /** `remove <h>` is among the commands exactly when some removal carries the hash `h`. */
  lemma RemoveCallIn(repo: string, rs: seq<Removal>, h: string)
    ensures RemoveCall(repo, h) in RemoveCalls(repo, rs) <==> h in Hashes(rs)
  {
    if RemoveCall(repo, h) in RemoveCalls(repo, rs) {
      var k :| 0 <= k < |rs| && RemoveCalls(repo, rs)[k] == RemoveCall(repo, h);
      assert RemoveCall(repo, rs[k].sha256).argv[2] == rs[k].sha256;
      assert Hashes(rs)[k] == h;
    }
    if h in Hashes(rs) {
      var k :| 0 <= k < |rs| && Hashes(rs)[k] == h;
      assert RemoveCalls(repo, rs)[k] == RemoveCall(repo, h);
    }
  }

  /** `h` is the hash of an item of a superseded version of `p`. */
  ghost predicate SupersededHash(p: Product, h: string)
  {
    exists v, k :: v in Superseded(p) && 0 <= k < |Get(p.versions, v).items| && Get(p.versions, v).items[k].1.sha256 == h
  }

  /** `h` is the hash of an item of a superseded version of some product. */
  ghost predicate CatalogSupersededHash(products: seq<(string, Product)>, h: string)
  {
    exists i :: 0 <= i < |products| && SupersededHash(products[i].1, h)
  }

  lemma RemovedHashSuperseded(product: string, p: Product, h: string)
    requires h in Hashes(ProductRemovals(product, p))
    ensures SupersededHash(p, h)
  {
    var rs := ProductRemovals(product, p);
    var k :| 0 <= k < |rs| && Hashes(rs)[k] == h;
    RemovalsOfFrom(product, p, Superseded(p));
    assert rs[k] in rs;
    var j :| 0 <= j < |Get(p.versions, rs[k].version).items| && Get(p.versions, rs[k].version).items[j].1.sha256 == h;
  }

  lemma SupersededHashRemoved(product: string, p: Product, h: string)
    requires SupersededHash(p, h)
    ensures h in Hashes(ProductRemovals(product, p))
  {
    var rs := ProductRemovals(product, p);
    var v, k :| v in Superseded(p) && 0 <= k < |Get(p.versions, v).items| && Get(p.versions, v).items[k].1.sha256 == h;
    RemovalsOfComplete(product, p, Superseded(p), v, k);
    var m :| 0 <= m < |rs| && rs[m] == Removal(product, v, h);
    assert Hashes(rs)[m] == h;
  }

  /** The hashes one product's removals carry are exactly those of its superseded versions' items. */
  lemma ProductRemovalHashes(product: string, p: Product, h: string)
    ensures h in Hashes(ProductRemovals(product, p)) <==> SupersededHash(p, h)
  {
    if h in Hashes(ProductRemovals(product, p)) { RemovedHashSuperseded(product, p, h); }
    if SupersededHash(p, h) { SupersededHashRemoved(product, p, h); }
  }

  /** A hash among a catalog's removals belongs to an item of a superseded version. */
  lemma {:induction false} RemovedHashInCatalog(products: seq<(string, Product)>, h: string)
    requires h in Hashes(Removals(products))
    ensures CatalogSupersededHash(products, h)
  {
    var n := |products|;
    RemovalHashesSplit(products, h);
    if h in Hashes(Removals(products[..n - 1])) {
      RemovedHashInCatalog(products[..n - 1], h);
      FrontHashInCatalog(products, h);
    } else {
      RemovedHashSuperseded(products[n - 1].0, products[n - 1].1, h);
      LastHashInCatalog(products, h);
    }
  }

  lemma FrontHashInCatalog(products: seq<(string, Product)>, h: string)
    requires products != [] && CatalogSupersededHash(products[..|products| - 1], h)
    ensures CatalogSupersededHash(products, h)
  {
    var front := products[..|products| - 1];
    var i :| 0 <= i < |front| && SupersededHash(front[i].1, h);
    assert front[i] == products[i];
    assert 0 <= i < |products| && SupersededHash(products[i].1, h);
  }

  lemma LastHashInCatalog(products: seq<(string, Product)>, h: string)
    requires products != [] && SupersededHash(products[|products| - 1].1, h)
    ensures CatalogSupersededHash(products, h)
  {
    var n := |products|;
    assert 0 <= n - 1 < n && SupersededHash(products[n - 1].1, h);
  }

  /** A hash is among a catalog's removals when it is among the earlier products' or the last one's. */
  lemma RemovalHashesSplit(products: seq<(string, Product)>, h: string)
    requires products != []
    ensures h in Hashes(Removals(products)) <==>
              (h in Hashes(Removals(products[..|products| - 1]))
               || h in Hashes(ProductRemovals(products[|products| - 1].0, products[|products| - 1].1)))
  {
    var n := |products|;
    var front := Removals(products[..n - 1]);
    var last := ProductRemovals(products[n - 1].0, products[n - 1].1);
    assert Removals(products) == front + last;
    HashesAppend(front, last);
  }

  lemma InFrontOrLast<T>(xs: seq<T>, x: T)
    requires x in xs
    ensures x in xs[..|xs| - 1] || x == xs[|xs| - 1]
  {
    var k :| 0 <= k < |xs| && xs[k] == x;
    if k < |xs| - 1 {
      assert xs[..|xs| - 1][k] == x;
    }
  }

  /** The hashes one product's removals carry are among those of its catalog. */
  lemma {:induction false} ProductHashInRemovals(products: seq<(string, Product)>, product: string, p: Product, h: string)
    requires (product, p) in products && h in Hashes(ProductRemovals(product, p))
    ensures h in Hashes(Removals(products))
  {
    RemovalHashesSplit(products, h);
    InFrontOrLast(products, (product, p));
    if (product, p) in products[..|products| - 1] {
      ProductHashInRemovals(products[..|products| - 1], product, p, h);
    }
  }

  /** The hashes of a catalog's removals are exactly those of its superseded versions' items. */
  lemma RemovalHashes(products: seq<(string, Product)>, h: string)
    ensures h in Hashes(Removals(products)) <==> CatalogSupersededHash(products, h)
  {
    if h in Hashes(Removals(products)) {
      RemovedHashInCatalog(products, h);
    }
    if CatalogSupersededHash(products, h) {
      var i :| 0 <= i < |products| && SupersededHash(products[i].1, h);
      SupersededHashRemoved(products[i].0, products[i].1, h);
      assert products[i] in products;
      ProductHashInRemovals(products, products[i].0, products[i].1, h);
    }
  }

  /**
    `remove` goes by hash: the clean-up of a catalog issues `remove <h>` exactly when `h` is
    the hash of an item of a superseded version of some product, whichever other versions
    hold an item with that hash too.
   */
  lemma RemoveCommandsIff(repo: string, products: seq<(string, Product)>, h: string)
    ensures RemoveCall(repo, h) in RemoveCalls(repo, Removals(products)) <==> CatalogSupersededHash(products, h)
  {
    RemoveCallIn(repo, Removals(products), h);
    RemovalHashes(products, h);
  }

  /**
    The archive of an item of a product's greatest version is never named by a `remove`
    command, provided no item of a superseded version of any product has the same hash.
   */
  lemma LatestItemKept(repo: string, c: Catalog, i: nat, v: string, k: nat)
    requires i < |c.products| && |c.products[i].1.versions| > 0
    requires v == Latest(c.products[i].1) && v in Keys(c.products[i].1.versions)
    requires k < |Get(c.products[i].1.versions, v).items|
    requires !CatalogSupersededHash(c.products, Get(c.products[i].1.versions, v).items[k].1.sha256)
    ensures RemoveCall(repo, Get(c.products[i].1.versions, v).items[k].1.sha256) !in RemoveCalls(repo, Removals(c.products))
  {
    RemoveCommandsIff(repo, c.products, Get(c.products[i].1.versions, v).items[k].1.sha256);
  }

  lemma LogAppend(log: seq<Incus.Call>, a: seq<Incus.Call>, b: seq<Incus.Call>, c: seq<Incus.Call>)
    requires c == a + b
    ensures log + a + b == log + c
  {
  }

  /** One more item of a superseded version: one more `remove` command. */
  lemma ItemLogStep(log: seq<Incus.Call>, repo: string, product: string, version: string, v: Version, k: nat)
    requires k < |v.items|
    ensures log + RemoveCalls(repo, VersionRemovals(product, version, v)[..k]) + [RemoveCall(repo, v.items[k].1.sha256)]
         == log + RemoveCalls(repo, VersionRemovals(product, version, v)[..k + 1])
  {
    var rs := VersionRemovals(product, version, v);
    assert rs[..k + 1] == rs[..k] + [rs[k]];
    RemoveCallsAppend(repo, rs[..k], [rs[k]]);
    LogAppend(log, RemoveCalls(repo, rs[..k]), RemoveCalls(repo, [rs[k]]), RemoveCalls(repo, rs[..k + 1]));
  }

  /** One more superseded version: its items' commands follow. */
  lemma VersionLogStep(log: seq<Incus.Call>, repo: string, product: string, p: Product, versions: seq<string>, j: nat)
    requires forall v :: v in versions ==> v in Keys(p.versions)
    requires j < |versions|
    ensures log + RemoveCalls(repo, RemovalsOf(product, p, versions[..j]))
                + RemoveCalls(repo, VersionRemovals(product, versions[j], Get(p.versions, versions[j])))
         == log + RemoveCalls(repo, RemovalsOf(product, p, versions[..j + 1]))
  {
    var a := RemovalsOf(product, p, versions[..j]);
    var b := VersionRemovals(product, versions[j], Get(p.versions, versions[j]));
    RemovalsOfStep(product, p, versions, j);
    RemoveCallsAppend(repo, a, b);
    LogAppend(log, RemoveCalls(repo, a), RemoveCalls(repo, b), RemoveCalls(repo, a + b));
  }

  /** One more product: its removals' commands follow. */
  lemma ProductLogStep(log: seq<Incus.Call>, repo: string, products: seq<(string, Product)>, i: nat)
    requires i < |products|
    ensures log + RemoveCalls(repo, Removals(products[..i]))
                + RemoveCalls(repo, ProductRemovals(products[i].0, products[i].1))
         == log + RemoveCalls(repo, Removals(products[..i + 1]))
  {
    var a := Removals(products[..i]);
    var b := ProductRemovals(products[i].0, products[i].1);
    RemovalsStep(products, i);
    RemoveCallsAppend(repo, a, b);
    LogAppend(log, RemoveCalls(repo, a), RemoveCalls(repo, b), RemoveCalls(repo, a + b));
  }

  // ---------------------------------------------------------------------------
  // prune_images: set difference over images/
  // ---------------------------------------------------------------------------

  function ImagesDir(root: string): string
  {
    Strings.Child(root, "images")
  }

  /** The entries of `dir` that are not referenced. */
  function Stale(files: set<string>, dir: string, referenced: seq<string>): set<string>
  {
    set f | f in files && Strings.InDir(dir, f) && f !in referenced
  }

  /** The host files after every unreferenced entry of `dir` is unlinked. */
  function AfterPrune(files: set<string>, dir: string, referenced: seq<string>): set<string>
  {
    files - Stale(files, dir, referenced)
  }

  /** A referenced file is never deleted. */
  lemma PruneKeepsReferenced(files: set<string>, dir: string, referenced: seq<string>)
    ensures forall f :: f in files && f in referenced ==> f in AfterPrune(files, dir, referenced)
  {
  }

  /** Every unreferenced entry of `dir` is gone, and nothing outside `dir` changes. */
  lemma PruneRemovesOnlyStale(files: set<string>, dir: string, referenced: seq<string>)
    ensures AfterPrune(files, dir, referenced) <= files
    ensures forall f :: Strings.InDir(dir, f) && f !in referenced ==> f !in AfterPrune(files, dir, referenced)
    ensures forall f :: !Strings.InDir(dir, f) ==> (f in AfterPrune(files, dir, referenced) <==> f in files)
  {
  }

  /** A second prune against the same referenced list deletes nothing. */
  lemma PruneIdempotent(files: set<string>, dir: string, referenced: seq<string>)
    ensures Stale(AfterPrune(files, dir, referenced), dir, referenced) == {}
    ensures AfterPrune(AfterPrune(files, dir, referenced), dir, referenced) == AfterPrune(files, dir, referenced)
  {
  }

  // ---------------------------------------------------------------------------
  // import_from_incus: the staged file
  // ---------------------------------------------------------------------------

  /** `alias.replace("/", "_")` */
  function Underscorify(alias: string): (r: string)
    ensures |r| == |alias|
    ensures '/' !in r
    ensures forall k :: 0 <= k < |alias| ==> r[k] == if alias[k] == '/' then '_' else alias[k]
  {
    seq(|alias|, k requires 0 <= k < |alias| => if alias[k] == '/' then '_' else alias[k])
  }

  /** `cachedir / f"{alias.replace('/', '_')}.tar.gz"` */
  function StagedFile(cachedir: string, alias: string): string
  {
    Incus.ExportedFile(cachedir, Underscorify(alias))
  }

  /** Whatever the alias, the staged file is an entry directly inside the cache directory. */
  lemma StagedFileInCache(cachedir: string, alias: string)
    ensures Strings.InDir(cachedir, StagedFile(cachedir, alias))
  {
    var name := Underscorify(alias) + ".tar.gz";
    assert '/' !in name by {
      assert forall k :: 0 <= k < |name| ==> name[k] != '/' by {
        forall k | 0 <= k < |name| ensures name[k] != '/' {
          if k < |alias| { assert name[k] == Underscorify(alias)[k]; }
        }
      }
    }
    Strings.ChildInDir(cachedir, name);
  }

  /** The commands of `import_from_incus`: export into the cache, then `incus-simplestreams add`. */
  function ImportLog(repo: string, cachedir: string, name: string, alias: string): seq<Incus.Call>
  {
    [ Incus.ExportCall(name, Underscorify(alias), cachedir),
      Incus.Call(["incus-simplestreams", "add", StagedFile(cachedir, alias)], Some(repo)) ]
  }

  // ---------------------------------------------------------------------------
  // The repository object
  // ---------------------------------------------------------------------------

  class SimpleStreams {
    const engine: Incus.Engine
    /** The repository root. */
    const path: string
    /** Where exported images are staged before they are added. */
    const cachedir: string

    constructor (engine: Incus.Engine, path: string, cachedir: string)
      ensures this.engine == engine && this.path == path && this.cachedir == cachedir
    {
      this.engine := engine;
      this.path := path;
      this.cachedir := cachedir;
    }

    /**
      Exports image `name` into the cache, adds the archive to the repository, and
      unlinks it. The exit status of `add` is not looked at.
     */
    method ImportFromIncus(name: string, alias: string)
      requires name in engine.images
      modifies engine`files, engine`log
      ensures engine.files == old(engine.files) - {StagedFile(cachedir, alias)}
      ensures engine.log == old(engine.log) + ImportLog(path, cachedir, name, alias)
    {
      var underscorified := Underscorify(alias);
      var imageFile := Strings.Child(cachedir, underscorified + ".tar.gz");
      engine.ImageExport(name, underscorified, cachedir);
      engine.RunTool(["incus-simplestreams", "add", imageFile], path);
      engine.Unlink(imageFile);
    }

    /**
      Unlinks every entry of `images/` that the catalog does not reference. The referenced
      list is computed once, before the first deletion. The entries are visited in no
      particular order.
     */
    method PruneImages(catalog: Catalog)
      modifies engine`files
      ensures engine.files == AfterPrune(old(engine.files), ImagesDir(path), ImagesPaths(path, catalog))
    {
      var imagesDir := ImagesDir(path);
      var images := ImagesPaths(path, catalog);
      var todo := engine.Entries(imagesDir);
      ghost var entries := todo;
      while todo != {}
        invariant todo <= entries
        invariant forall f :: f in entries <==> f in old(engine.files) && Strings.InDir(imagesDir, f)
        invariant engine.files == old(engine.files) - (set f | f in entries - todo && f !in images)
        decreases |todo|
      {
        var file :| file in todo;
        if file !in images {
          engine.Unlink(file);
        }
        todo := todo - {file};
      }
    }

    /** Issues `remove <sha256>` for every item of every version but the greatest, per product. */
    method CleanPreviousVersions(catalog: Catalog)
      modifies engine`log
      ensures engine.log == old(engine.log) + RemoveCalls(path, Removals(catalog.products))
    {
      var products := catalog.products;
      var i := 0;
      while i < |products|
        invariant 0 <= i <= |products|
        invariant engine.log == old(engine.log) + RemoveCalls(path, Removals(products[..i]))
      {
        ProductLogStep(old(engine.log), path, products, i);
        RemoveSupersededVersions(products[i].0, products[i].1);
        i := i + 1;
      }
      assert products[..i] == products;
    }

    /** The body of the product loop of `clean_previous_versions`. */
    method RemoveSupersededVersions(productName: string, product: Product)
      modifies engine`log
      ensures engine.log == old(engine.log) + RemoveCalls(path, ProductRemovals(productName, product))
    {
      var versions := Strings.Sort(Keys(product.versions));
      var superseded := if versions == [] then [] else versions[..|versions| - 1];
      assert superseded == Superseded(product);
      var j := 0;
      while j < |superseded|
        invariant 0 <= j <= |superseded|
        invariant engine.log == old(engine.log) + RemoveCalls(path, RemovalsOf(productName, product, superseded[..j]))
      {
        VersionLogStep(old(engine.log), path, productName, product, superseded, j);
        var version := Get(product.versions, superseded[j]);
        RemoveItems(productName, superseded[j], version);
        j := j + 1;
      }
      assert superseded[..j] == superseded;
    }

    /** The item loop of `clean_previous_versions`: one `remove` per item of a version. */
    method RemoveItems(productName: string, versionName: string, version: Version)
      modifies engine`log
      ensures engine.log == old(engine.log) + RemoveCalls(path, VersionRemovals(productName, versionName, version))
    {
      var k := 0;
      while k < |version.items|
        invariant 0 <= k <= |version.items|
        invariant engine.log == old(engine.log) + RemoveCalls(path, VersionRemovals(productName, versionName, version)[..k])
      {
        ItemLogStep(old(engine.log), path, productName, versionName, version, k);
        var sha := version.items[k].1.sha256;
        engine.RunTool(["incus-simplestreams", "remove", sha], path);
        k := k + 1;
      }
      assert VersionRemovals(productName, versionName, version)[..k] == VersionRemovals(productName, versionName, version);
    }
  }
}
