/**
  The asset library (src/components/ContentCreator/AssetManager/AssetManager.tsx): a list of
  uploaded assets, a search box that keeps the assets whose name contains the query ignoring case,
  deletion by id, and drops that append new image assets after the existing ones.
 */
module AssetManager {
  import opened Common
  import opened SeqOps

  datatype AssetType = ImageAsset | VideoAsset | AudioAsset | IconAsset

  /** `uploadedAt` is the drop time, kept as an opaque number. */
  datatype Asset = Asset(id: Id, name: string, url: string, kind: AssetType, thumbnail: Option<string>, uploadedAt: int)

  /** A dropped file as the drop handler sees it: its name, the object URL made for it, its id and time. */
  datatype DroppedFile = DroppedFile(name: string, objectUrl: string, id: Id, uploadedAt: int)

  /** `toLowerCase()` on one character, for the Latin letters A to Z. */
  function LowerChar(c: char): (r: char)
    ensures 'A' <= c <= 'Z' ==> 'a' <= r <= 'z' && r as int == c as int + 32
    ensures !('A' <= c <= 'Z') ==> r == c
  {
    if 'A' <= c <= 'Z' then (c as int + 32) as char else c
  }

  /** `toLowerCase()`. */
  function Lower(s: string): (r: string)
    ensures |r| == |s|
    ensures forall i :: 0 <= i < |s| ==> r[i] == LowerChar(s[i])
  {
    seq(|s|, i requires 0 <= i < |s| => LowerChar(s[i]))
  }

  /** Lower-casing twice is lower-casing once. */
  lemma LowerIdempotent(s: string)
    ensures Lower(Lower(s)) == Lower(s)
  {
  }

  /** `sub` is found in `s` starting at index `i`. */
  predicate OccursAt(s: string, sub: string, i: int)
  {
    0 <= i && i + |sub| <= |s| && s[i..i + |sub|] == sub
  }

  /** `s.includes(sub)`: `sub` occurs in `s` at some position. */
  function Includes(s: string, sub: string): (r: bool)
    ensures r <==> exists i :: OccursAt(s, sub, i)
    decreases |s|
  {
    if |sub| > |s| then false
    else if s[..|sub|] == sub then assert OccursAt(s, sub, 0); true
    else
      assert !OccursAt(s, sub, 0) by { assert s[0..|sub|] == s[..|sub|]; }
      OccursInTail(s, sub);
      Includes(s[1..], sub)
  }

  /** Without an occurrence at the start, `sub` occurs in `s` exactly when it occurs in its tail. */
  lemma OccursInTail(s: string, sub: string)
    requires |s| > 0 && !OccursAt(s, sub, 0)
    ensures (exists i :: OccursAt(s, sub, i)) <==> (exists j :: OccursAt(s[1..], sub, j))
  {
    if i :| OccursAt(s, sub, i) {
      assert s[1..][i - 1..i - 1 + |sub|] == s[i..i + |sub|];
      assert OccursAt(s[1..], sub, i - 1);
    }
    if j :| OccursAt(s[1..], sub, j) {
      assert s[1..][j..j + |sub|] == s[j + 1..j + 1 + |sub|];
      assert OccursAt(s, sub, j + 1);
    }
  }

  /** The search filter's test for one asset. */
  function Matches(query: string): Asset -> bool
  {
    (a: Asset) => Includes(Lower(a.name), Lower(query))
  }

  /** `filteredAssets`: the assets whose lower-cased name contains the lower-cased query, in list order. */
  function FilteredAssets(assets: seq<Asset>, query: string): (r: seq<Asset>)
    ensures forall a :: a in r <==> a in assets && Includes(Lower(a.name), Lower(query))
  {
    forall a ensures a in Filter(assets, Matches(query)) <==> a in assets && Matches(query)(a) {
      FilterMembership(assets, Matches(query), a);
    }
    Filter(assets, Matches(query))
  }

  /**
    The search works asset by asset and keeps list order: it distributes over concatenation,
    and a single asset survives exactly when its lower-cased name contains the lower-cased query.
   */
  lemma FilteredAssetsElementwise(a: seq<Asset>, b: seq<Asset>, x: Asset, query: string)
    ensures FilteredAssets(a + b, query) == FilteredAssets(a, query) + FilteredAssets(b, query)
    ensures FilteredAssets([x], query) == if Includes(Lower(x.name), Lower(query)) then [x] else []
  {
    FilterAppend(a, b, Matches(query));
  }

  /** An empty query keeps every asset. */
  lemma EmptyQueryKeepsAll(assets: seq<Asset>)
    ensures FilteredAssets(assets, "") == assets
  {
    forall k | 0 <= k < |assets| ensures Matches("")(assets[k]) {
      assert OccursAt(Lower(assets[k].name), Lower(""), 0);
    }
    FilterKeepsAll(assets, Matches(""));
  }

  /** The search ignores the case of the query: a query and its lower-cased form select the same assets. */
  lemma QueryCaseIgnored(assets: seq<Asset>, query: string)
    ensures FilteredAssets(assets, query) == FilteredAssets(assets, Lower(query))
  {
    LowerIdempotent(query);
    assert Matches(query) == Matches(Lower(query));
  }

  /** The asset a dropped file becomes: an image whose thumbnail is its object URL. */
  function UploadedAsset(f: DroppedFile): (r: Asset)
    ensures r.id == f.id && r.name == f.name && r.url == f.objectUrl && r.kind == ImageAsset
    ensures r.thumbnail == Some(f.objectUrl) && r.uploadedAt == f.uploadedAt
  {
    Asset(f.id, f.name, f.objectUrl, ImageAsset, Some(f.objectUrl), f.uploadedAt)
  }

  /** The `handleDeleteAsset` filter's test for one asset. */
  function OtherAsset(id: Id): Asset -> bool
  {
    (a: Asset) => a.id != id
  }

  /** The `handleDeleteAsset` filter: exactly the assets with another id remain, in their order. */
  function WithoutAsset(assets: seq<Asset>, id: Id): (r: seq<Asset>)
    ensures forall a :: a in r <==> a in assets && a.id != id
  {
    forall a ensures a in Filter(assets, OtherAsset(id)) <==> a in assets && OtherAsset(id)(a) {
      FilterMembership(assets, OtherAsset(id), a);
    }
    Filter(assets, OtherAsset(id))
  }

  /**
    The deletion works asset by asset and keeps list order: it distributes over concatenation,
    and a single asset survives exactly when its id differs.
   */
  lemma WithoutAssetElementwise(a: seq<Asset>, b: seq<Asset>, x: Asset, id: Id)
    ensures WithoutAsset(a + b, id) == WithoutAsset(a, id) + WithoutAsset(b, id)
    ensures WithoutAsset([x], id) == if x.id != id then [x] else []
  {
    FilterAppend(a, b, OtherAsset(id));
  }

  /** Deleting an id no asset has keeps the list as it is. */
  lemma DeleteAbsentAsset(assets: seq<Asset>, id: Id)
    requires forall k :: 0 <= k < |assets| ==> assets[k].id != id
    ensures WithoutAsset(assets, id) == assets
  {
    FilterKeepsAll(assets, (a: Asset) => a.id != id);
  }

  class AssetLibrary {
    var assets: seq<Asset>
    var searchQuery: string
    var isUploading: bool

    /** No assets, an empty query, no upload running. */
    constructor()
      ensures assets == [] && searchQuery == "" && !isUploading
    {
      assets := [];
      searchQuery := "";
      isUploading := false;
    }

    /** The list the library shows. */
    function Shown(): seq<Asset>
      reads this
    {
      FilteredAssets(assets, searchQuery)
    }

    method SetSearchQuery(q: string)
      modifies this`searchQuery
      ensures searchQuery == q
    {
      searchQuery := q;
    }

    /** The start of `onDrop`: the upload indicator goes on. */
    method StartDrop()
      modifies this`isUploading
      ensures isUploading
    {
      isUploading := true;
    }

    /**
      The end of `onDrop`: the new assets, one per file in drop order, are appended after the
      assets present at that moment, which stay as they were; the indicator goes off.
     */
    method FinishDrop(files: seq<DroppedFile>)
      modifies this`assets, this`isUploading
      ensures |assets| == |old(assets)| + |files|
      ensures assets[..|old(assets)|] == old(assets)
      ensures forall k :: 0 <= k < |files| ==> assets[|old(assets)| + k] == UploadedAsset(files[k])
      ensures !isUploading
    {
      var newAssets := seq(|files|, k requires 0 <= k < |files| => UploadedAsset(files[k]));
      assets := assets + newAssets;
      isUploading := false;
    }

    /** `handleDeleteAsset(id)`. */
    method DeleteAsset(id: Id)
      modifies this`assets
      ensures assets == WithoutAsset(old(assets), id)
    {
      assets := WithoutAsset(assets, id);
    }
  }
}
